/**
 * Java's `String.split(sep)` for a one-character separator that is not a
 * regular-expression metacharacter (the name-type list is split on ",").
 */
module JavaSplit {

  /** Every piece between separators, empty pieces included: "a,,b," gives ["a", "", "b", ""]. */
  function Fields(s: string, sep: char): (r: seq<string>)
    ensures |r| >= 1
    ensures forall i :: 0 <= i < |r| ==> sep !in r[i]
    ensures sep !in s ==> r == [s]
  {
    if |s| == 0 then [""]
    else
      var rest := Fields(s[1..], sep);
      if s[0] == sep then [""] + rest
      else
        assert s == [s[0]] + s[1..];
        [[s[0]] + rest[0]] + rest[1..]
  }

  /** The pieces with the separator put back between them. */
  function Join(parts: seq<string>, sep: char): string
  {
    if |parts| == 0 then ""
    else if |parts| == 1 then parts[0]
    else parts[0] + [sep] + Join(parts[1..], sep)
  }

  /** Splitting loses nothing: joining the fields again gives the input. */
  lemma {:induction false} JoinFields(s: string, sep: char)
    ensures Join(Fields(s, sep), sep) == s
  {
    if |s| > 0 {
      var rest := Fields(s[1..], sep);
      JoinFields(s[1..], sep);
      if s[0] == sep {
        assert s == [sep] + s[1..];
      } else {
        if |rest| == 1 {
          assert s == [s[0]] + rest[0];
        } else {
          assert rest == [rest[0]] + rest[1..];
          assert Join(rest, sep) == rest[0] + [sep] + Join(rest[1..], sep);
          assert s == [s[0]] + s[1..];
        }
      }
    }
  }

  /** `parts` with every empty string at its end removed. */
  function DropTrailingEmpty(parts: seq<string>): (r: seq<string>)
    ensures |r| <= |parts| && r == parts[..|r|]
    ensures r == [] || r[|r| - 1] != ""
    ensures forall i :: |r| <= i < |parts| ==> parts[i] == ""
  {
    if |parts| > 0 && parts[|parts| - 1] == "" then DropTrailingEmpty(parts[..|parts| - 1])
    else parts
  }

  /** Appending an empty piece appends one separator. */
  lemma {:induction false} JoinAppendEmpty(parts: seq<string>, sep: char)
    requires |parts| >= 1
    ensures Join(parts + [""], sep) == Join(parts, sep) + [sep]
  {
    if |parts| > 1 {
      assert (parts + [""])[1..] == parts[1..] + [""];
      JoinAppendEmpty(parts[1..], sep);
    }
  }

  /** Joining what is left after dropping trailing empty pieces gives a prefix, followed only by separators. */
  lemma {:induction false} JoinDropTrailingEmpty(parts: seq<string>, sep: char)
    ensures var j, full := Join(DropTrailingEmpty(parts), sep), Join(parts, sep);
      |j| <= |full| && full[..|j|] == j && forall i :: |j| <= i < |full| ==> full[i] == sep
  {
    if |parts| > 0 && parts[|parts| - 1] == "" {
      var front := parts[..|parts| - 1];
      assert parts == front + [""];
      JoinDropTrailingEmpty(front, sep);
      if |front| >= 1 {
        JoinAppendEmpty(front, sep);
      }
    }
  }

  /**
   * `s.split(sep)`: when the separator does not occur, the whole string; else
   * the fields with trailing empty ones removed (so ",".split(",") is empty
   * and "".split(",") is [""]).
   */
  function Split(s: string, sep: char): (r: seq<string>)
    ensures forall i :: 0 <= i < |r| ==> sep !in r[i]
    ensures sep !in s ==> r == [s]
    ensures sep in s ==> r == [] || r[|r| - 1] != ""
    // what split loses is only a run of separators at the end of the input
    ensures var j := Join(r, sep);
      |j| <= |s| && s[..|j|] == j && forall i :: |j| <= i < |s| ==> s[i] == sep
  {
    if sep !in s then [s]
    else
      JoinFields(s, sep);
      JoinDropTrailingEmpty(Fields(s, sep), sep);
      DropTrailingEmpty(Fields(s, sep))
  }
}
