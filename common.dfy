/** Values shared by every part of the marketplace client model. */
module Common {

  datatype Option<T> = None | Some(value: T)

  /** A Java `String` reference: either `null` or some text.  Column values
      read through JDBC (`getString` returns null for SQL NULL) and the static
      session fields are of this kind. */
  datatype Cell = Null | Text(s: string)

  /** The text Java's string concatenation produces for a possibly-null string. */
  function Show(c: Cell): string
  {
    match c
    case Null => "null"
    case Text(s) => s
  }

  /** The operator's "no filter / no change / unlimited" answer. */
  const Dash: string := "-"

  /** What string concatenation makes of a `null` line: at the end of input
      `readLine()` gives `null`, and a lookup built from it asks for the
      text "null". */
  const NullText: string := "null"

  /** The characters `String.trim()` removes: every char up to U+0020. */
  predicate IsBlank(c: char)
  {
    c <= ' '
  }

  predicate AllBlank(s: string)
  {
    forall i :: 0 <= i < |s| ==> IsBlank(s[i])
  }

  /** Neither starts nor ends with a blank character. */
  predicate IsTrimmed(s: string)
  {
    s == [] || (!IsBlank(s[0]) && !IsBlank(s[|s| - 1]))
  }

  /** Java's `String.trim()`: drops leading and trailing blanks. */
  function Trim(s: string): (r: string)
    ensures IsTrimmed(r)
    ensures |r| <= |s|
    decreases |s|
  {
    if |s| > 0 && IsBlank(s[0]) then Trim(s[1..])
    else if |s| > 0 && IsBlank(s[|s| - 1]) then Trim(s[..|s| - 1])
    else s
  }

  /** Leading blanks never survive trimming. */
  lemma {:induction false} TrimSkipsLeading(lead: string, rest: string)
    requires AllBlank(lead)
    ensures Trim(lead + rest) == Trim(rest)
    decreases |lead|
  {
    if |lead| > 0 {
      var s := lead + rest;
      assert s[0] == lead[0];
      assert s[1..] == lead[1..] + rest;
      TrimSkipsLeading(lead[1..], rest);
    } else {
      assert lead + rest == rest;
    }
  }

  /** Trailing blanks never survive trimming. */
  lemma {:induction false} TrimSkipsTrailing(core: string, trail: string)
    requires AllBlank(trail) && (core == [] || !IsBlank(core[0]))
    ensures Trim(core + trail) == Trim(core)
    decreases |trail|
  {
    var s := core + trail;
    if |trail| > 0 {
      if |core| > 0 {
        assert s[0] == core[0];
        assert s[|s| - 1] == trail[|trail| - 1];
        assert s[..|s| - 1] == core + trail[..|trail| - 1];
        TrimSkipsTrailing(core, trail[..|trail| - 1]);
      } else {
        assert s == trail;
        assert s[1..] == core + trail[1..];
        TrimSkipsTrailing(core, trail[1..]);
      }
    } else {
      assert s == core;
    }
  }

  /** Trimming recovers a value from any blank padding around it, as a
      fixed-width column read back as text has. */
  lemma TrimRemovesPadding(lead: string, core: string, trail: string)
    requires AllBlank(lead) && AllBlank(trail) && IsTrimmed(core)
    ensures Trim(lead + core + trail) == core
  {
    assert lead + core + trail == lead + (core + trail);
    TrimSkipsLeading(lead, core + trail);
    TrimSkipsTrailing(core, trail);
  }
}
