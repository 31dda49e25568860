/**
 * The small part of Python's semantics the room-presence sensor relies on:
 * str.split with a one-character separator, str.upper, and the `seconds`
 * component of a datetime.timedelta.
 */
module PyRuntime {

  /** `s.split(sep)`: the pieces between separators, empty pieces included. */
  function Split(s: string, sep: char): (parts: seq<string>)
    ensures |parts| >= 1
    ensures forall i :: 0 <= i < |parts| ==> sep !in parts[i]
  {
    if |s| == 0 then [""]
    else if s[0] == sep then [""] + Split(s[1..], sep)
    else
      var rest := Split(s[1..], sep);
      [[s[0]] + rest[0]] + rest[1..]
  }

  /** `sep.join(parts)`. */
  function Join(parts: seq<string>, sep: char): string
    requires |parts| >= 1
  {
    if |parts| == 1 then parts[0] else parts[0] + [sep] + Join(parts[1..], sep)
  }

  /** Joining the pieces of a split gives back the original string. */
  lemma {:induction false} JoinSplit(s: string, sep: char)
    ensures Join(Split(s, sep), sep) == s
  {
    if |s| == 0 {
    } else if s[0] == sep {
      JoinSplit(s[1..], sep);
      assert [s[0]] + s[1..] == s;
    } else {
      JoinSplit(s[1..], sep);
      var rest := Split(s[1..], sep);
      var parts := [[s[0]] + rest[0]] + rest[1..];
      if |rest| == 1 {
        assert Join(parts, sep) == [s[0]] + rest[0];
      } else {
        assert parts[1..] == rest[1..];
        assert Join(parts, sep) == [s[0]] + rest[0] + [sep] + Join(rest[1..], sep);
      }
      assert [s[0]] + s[1..] == s;
    }
  }

  /** Splitting a join of separator-free pieces gives back the pieces. */
  lemma {:induction false} SplitJoin(parts: seq<string>, sep: char)
    requires |parts| >= 1
    requires forall i :: 0 <= i < |parts| ==> sep !in parts[i]
    ensures Split(Join(parts, sep), sep) == parts
    decreases |parts|, |parts[0]|
  {
    var head := parts[0];
    if |head| == 0 {
      if |parts| == 1 {
      } else {
        SplitJoin(parts[1..], sep);
        var s := [sep] + Join(parts[1..], sep);
        assert Join(parts, sep) == s;
        assert s[1..] == Join(parts[1..], sep);
        assert [""] + parts[1..] == parts;
      }
    } else {
      var shorter := [head[1..]] + parts[1..];
      assert sep !in head[1..] by {
        assert forall c :: c in head[1..] ==> c in head;
      }
      SplitJoin(shorter, sep);
      assert shorter[1..] == parts[1..];
      var s := Join(parts, sep);
      assert s == [head[0]] + Join(shorter, sep) by {
        if |parts| > 1 {
          assert head == [head[0]] + head[1..];
        }
      }
      assert s[0] == head[0] && s[0] != sep;
      assert s[1..] == Join(shorter, sep);
      assert [head[0]] + head[1..] == head;
      assert [[head[0]] + shorter[0]] + shorter[1..] == parts;
    }
  }

  /** A join is at least as long as its last piece plus one separator per earlier piece. */
  lemma {:induction false} JoinLength(parts: seq<string>, sep: char)
    requires |parts| >= 1
    ensures |Join(parts, sep)| >= |parts[|parts| - 1]| + |parts| - 1
  {
    if |parts| > 1 {
      JoinLength(parts[1..], sep);
    }
  }

  /** `s.split(sep)[-1]`. */
  function LastPiece(s: string, sep: char): string {
    var parts := Split(s, sep);
    parts[|parts| - 1]
  }

  /**
   * The last piece of a split is a suffix of the string that holds no
   * separator and is either the whole string or preceded by a separator.
   */
  lemma {:induction false} LastPieceIsSuffix(s: string, sep: char)
    ensures sep !in LastPiece(s, sep)
    ensures |LastPiece(s, sep)| <= |s|
    ensures s[|s| - |LastPiece(s, sep)|..] == LastPiece(s, sep)
    ensures |LastPiece(s, sep)| == |s| || s[|s| - |LastPiece(s, sep)| - 1] == sep
  {
    if |s| == 0 {
    } else {
      LastPieceIsSuffix(s[1..], sep);
      var rest := Split(s[1..], sep);
      if s[0] == sep {
        assert Split(s, sep)[|Split(s, sep)| - 1] == rest[|rest| - 1];
      } else if |rest| == 1 {
        JoinSplit(s[1..], sep);
        assert LastPiece(s, sep) == [s[0]] + rest[0];
        assert [s[0]] + s[1..] == s;
      } else {
        assert Split(s, sep)[|Split(s, sep)| - 1] == rest[|rest| - 1];
        JoinSplit(s[1..], sep);
        JoinLength(rest, sep);
      }
    }
  }

  /** Upper-casing of one character; only the ASCII letters a-z are mapped. */
  function UpperChar(c: char): char {
    if 'a' <= c <= 'z' then (c as int - 'a' as int + 'A' as int) as char else c
  }

  /** `s.upper()`, character by character (ASCII letters only). */
  function Upper(s: string): (r: string)
    ensures |r| == |s|
    ensures forall i :: 0 <= i < |s| ==> r[i] == UpperChar(s[i])
    ensures forall i :: 0 <= i < |r| ==> !('a' <= r[i] <= 'z')
  {
    if |s| == 0 then "" else [UpperChar(s[0])] + Upper(s[1..])
  }

  const SECONDS_PER_DAY := 86400

  /**
   * `(b - a).seconds` for two instants `elapsed` whole seconds apart: Python
   * normalises a timedelta to days, seconds and microseconds with seconds in
   * 0..86399, so the component is the elapsed time modulo one day, also for a
   * negative difference (days becomes negative).
   */
  function TimedeltaSeconds(elapsed: int): (r: int)
    ensures 0 <= r < SECONDS_PER_DAY
    ensures exists days :: elapsed == days * SECONDS_PER_DAY + r
  {
    var r := elapsed % SECONDS_PER_DAY;
    assert elapsed == (elapsed / SECONDS_PER_DAY) * SECONDS_PER_DAY + r;
    r
  }

  /** Within one day the seconds component is the whole elapsed time. */
  lemma TimedeltaSecondsWithinDay(elapsed: int)
    requires 0 <= elapsed < SECONDS_PER_DAY
    ensures TimedeltaSeconds(elapsed) == elapsed
  {
  }

  /** A whole day later the seconds component starts again from zero. */
  lemma TimedeltaSecondsWraps(elapsed: int)
    ensures TimedeltaSeconds(elapsed + SECONDS_PER_DAY) == TimedeltaSeconds(elapsed)
  {
  }
}
