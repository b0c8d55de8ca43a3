/** How a species' equation codes from the assignment table become the names
    of the equations to evaluate, and how those names are displayed again:
    `check_for_None`, the "Eq_" / "BB_" / "BLB_" name construction, and
    `replace_func_with_name`. Codes are the text `str` gives for a table cell. */
module Assignments {
  import opened Wrappers

  /** `code.replace('.', '')`: the code with every '.' removed. */
  function RemoveDots(s: string): (r: string)
    ensures '.' !in r
    ensures |r| <= |s|
    ensures forall c :: c != '.' ==> multiset(r)[c] == multiset(s)[c]
  {
    if |s| == 0 then ""
    else
      assert s == [s[0]] + s[1..];
      (if s[0] == '.' then "" else [s[0]]) + RemoveDots(s[1..])
  }

  /** Removing dots from a dot-free code leaves it unchanged. */
  lemma {:induction false} RemoveDotsIdentity(s: string)
    requires '.' !in s
    ensures RemoveDots(s) == s
  {
    if |s| > 0 {
      RemoveDotsIdentity(s[1..]);
    }
  }

  /** Dots are removed piecewise, so the remaining characters keep their order. */
  lemma {:induction false} RemoveDotsAppend(a: string, b: string)
    ensures RemoveDots(a + b) == RemoveDots(a) + RemoveDots(b)
  {
    if |a| == 0 {
      assert a + b == b;
    } else {
      assert (a + b)[1..] == a[1..] + b;
      RemoveDotsAppend(a[1..], b);
    }
  }

  /** Removing dots never introduces a character. */
  lemma RemoveDotsKeepsOut(s: string, c: char)
    requires c != '.' && c !in s
    ensures c !in RemoveDots(s)
  {
    assert multiset(s)[c] == 0;
    assert multiset(RemoveDots(s))[c] == 0;
  }

  /** `check_for_None`: no equation for the placeholder "--"; otherwise the code
      with its dots removed ("14.1" becomes "141"), which for a dot-free code
      is the code itself. */
  function CheckForNone(code: string): (r: Option<string>)
    ensures r.None? <==> code == "--"
    ensures r.Some? ==> '.' !in r.value && r.value == RemoveDots(code)
    ensures code != "--" && '.' !in code ==> r == Some(code)
  {
    if code == "--" then None
    else if '.' in code then Some(RemoveDots(code))
    else RemoveDotsIdentity(code); Some(code)
  }

  /** The three assignment tables and the prefix of their equation names. */
  datatype Table = VolumeTable | BarkTable | BranchTable

  /** The prefix before the '_': "Eq", "BB" or "BLB". */
  function Stem(t: Table): (s: string)
    ensures '_' !in s
  {
    match t
    case VolumeTable => "Eq"
    case BarkTable => "BB"
    case BranchTable => "BLB"
  }

  /** `prefix + str(check_for_None(code))`, the name looked up for a code;
      `str(None)` is "None". */
  function EquationName(t: Table, code: string): (name: string)
    ensures code == "--" ==> name == Stem(t) + "_" + "None"
    ensures code != "--" ==> name == Stem(t) + "_" + RemoveDots(code)
  {
    Stem(t) + "_" + match CheckForNone(code) { case None => "None" case Some(s) => s }
  }

  /** The text before the first '_', all of `s` when it has none. */
  function UpToUnderscore(s: string): (r: string)
    ensures '_' !in r
    ensures r <= s
    ensures |r| < |s| ==> s[|r|] == '_'
  {
    if |s| == 0 || s[0] == '_' then "" else [s[0]] + UpToUnderscore(s[1..])
  }

  /** `name.split('_')[1]`: the text between the first and the second '_' (or
      the end); `None` when the name has no '_', where Python raises IndexError. */
  function SecondField(name: string): (r: Option<string>)
    ensures r.None? <==> '_' !in name
    ensures r.Some? ==> '_' !in r.value
  {
    var first := UpToUnderscore(name);
    if |first| == |name| then
      assert first == name;
      None
    else
      assert name[|first|] == '_';
      Some(UpToUnderscore(name[|first| + 1..]))
  }

  /** `replace_func_with_name` on an equation: its second name field, with
      "None" displayed as the placeholder "--". */
  function Display(name: string): (r: Option<string>)
    ensures r.None? <==> '_' !in name
    ensures r.Some? ==> r.value == "--" || (r.value != "None" && '_' !in r.value)
  {
    match SecondField(name)
    case None => None
    case Some(field) => if field == "None" then Some("--") else Some(field)
  }

  /** A text without '_' reads back as itself up to the first '_'. */
  lemma {:induction false} UpToUnderscoreAppend(a: string, b: string)
    requires '_' !in a
    ensures UpToUnderscore(a + "_" + b) == a
  {
    if |a| == 0 {
      assert a + "_" + b == "_" + b;
    } else {
      assert (a + "_" + b)[1..] == a[1..] + "_" + b;
      UpToUnderscoreAppend(a[1..], b);
    }
  }

  /** A text without '_' is its own first field. */
  lemma {:induction false} UpToUnderscoreWhole(s: string)
    requires '_' !in s
    ensures UpToUnderscore(s) == s
  {
    if |s| > 0 {
      UpToUnderscoreWhole(s[1..]);
    }
  }

  /** The second field of stem + "_" + rest, for an underscore-free rest, is rest. */
  lemma {:induction false} SecondFieldOfName(stem: string, rest: string)
    requires '_' !in stem && '_' !in rest
    ensures SecondField(stem + "_" + rest) == Some(rest)
  {
    var name := stem + "_" + rest;
    UpToUnderscoreAppend(stem, rest);
    assert name[|stem| + 1..] == rest;
    UpToUnderscoreWhole(rest);
  }

  /** Displaying the name built from an underscore-free code gives back "--"
      for "--", the code without its dots otherwise, and "--" again for a code
      that reads "None" once its dots are gone: so "--" and every dot-free code
      other than "None" round-trip, while "14.1" is displayed as "141". */
  lemma {:induction false} DisplayRoundTrip(t: Table, code: string)
    requires '_' !in code
    ensures code == "--" ==> Display(EquationName(t, code)) == Some("--")
    ensures code != "--" && RemoveDots(code) != "None" ==>
              Display(EquationName(t, code)) == Some(RemoveDots(code))
    ensures code != "--" && RemoveDots(code) == "None" ==>
              Display(EquationName(t, code)) == Some("--")
    ensures code != "--" && '.' !in code && code != "None" ==>
              Display(EquationName(t, code)) == Some(code)
  {
    if code == "--" {
      SecondFieldOfName(Stem(t), "None");
    } else {
      RemoveDotsKeepsOut(code, '_');
      SecondFieldOfName(Stem(t), RemoveDots(code));
      if '.' !in code {
        RemoveDotsIdentity(code);
      }
    }
  }
}
