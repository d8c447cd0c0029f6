/** LogUtil's string helpers: the boolean encodings and getFormatted, which
    splits a space-separated list of names, checks it against the values,
    and builds "Name: value, " for each pair in order. Values are given as
    the strings Java would print for them. */
module LogUtil {
  import opened Exceptions

  /** "1" for true, "0" for false. */
  function BoolToString(b: bool): (r: string)
    ensures |r| == 1 && '0' <= r[0] <= '1'
    ensures r[0] == '1' <==> b
  {
    if b then "1" else "0"
  }

  /** 1.0 for true, 0.0 for false. */
  function BoolToDouble(b: bool): (r: real)
    ensures 0.0 <= r <= 1.0
    ensures r == 1.0 <==> b
  {
    if b then 1.0 else 0.0
  }

  /** Both encodings are one-to-one, and they agree: the digit of the string
      is the number. */
  lemma BoolEncodingsAgree(a: bool, b: bool)
    ensures BoolToString(a) == BoolToString(b) <==> a == b
    ensures BoolToDouble(a) == BoolToDouble(b) <==> a == b
    ensures |BoolToString(b)| == 1 && (BoolToString(b)[0] as int - '0' as int) as real == BoolToDouble(b)
  {
  }

  // ---- String.split(" +") ----

  /** The string without its leading spaces. */
  function TrimLeadingSpaces(s: string): (r: string)
    ensures |r| <= |s|
    ensures r == [] || r[0] != ' '
    ensures ' ' !in s ==> r == s
  {
    if |s| > 0 && s[0] == ' ' then TrimLeadingSpaces(s[1..]) else s
  }

  /** The pieces between maximal runs of spaces, empty pieces included: a
      leading run gives an empty first piece and a trailing run an empty
      last piece. */
  function Fields(s: string): (r: seq<string>)
    ensures |r| >= 1
    decreases |s|
  {
    if |s| == 0 then [""]
    else if s[0] == ' ' then [""] + Fields(TrimLeadingSpaces(s[1..]))
    else var rest := Fields(s[1..]); [[s[0]] + rest[0]] + rest[1..]
  }

  /** The sequence without its trailing empty strings. */
  function DropTrailingEmpty(xs: seq<string>): (r: seq<string>)
    ensures |r| <= |xs| && r == xs[..|r|]
    ensures r == [] || r[|r| - 1] != ""
    ensures forall k :: |r| <= k < |xs| ==> xs[k] == ""
  {
    if |xs| > 0 && xs[|xs| - 1] == "" then DropTrailingEmpty(xs[..|xs| - 1]) else xs
  }

  /** Java's names.split(" +"): a string without a space is returned whole
      (even when empty); otherwise the pieces between runs of spaces, with
      trailing empty pieces removed. */
  function Split(s: string): (r: seq<string>)
    ensures ' ' !in s ==> r == [s]
    ensures forall k :: 0 <= k < |r| ==> ' ' !in r[k]
  {
    if ' ' !in s then [s]
    else
      FieldsHaveNoSpaces(s);
      DropTrailingEmpty(Fields(s))
  }

  /** No piece contains a space. */
  lemma FieldsHaveNoSpaces(s: string)
    ensures forall k :: 0 <= k < |Fields(s)| ==> ' ' !in Fields(s)[k]
    decreases |s|
  {
    if |s| == 0 {
    } else if s[0] == ' ' {
      FieldsHaveNoSpaces(TrimLeadingSpaces(s[1..]));
    } else {
      FieldsHaveNoSpaces(s[1..]);
    }
  }

  /** Only the first piece can be empty (when the string starts with a
      space), apart from a trailing empty piece. */
  lemma FieldsInnerNonEmpty(s: string)
    ensures forall k :: 0 < k < |Fields(s)| - 1 ==> Fields(s)[k] != ""
    decreases |s|
  {
    if |s| == 0 {
    } else if s[0] == ' ' {
      var t := TrimLeadingSpaces(s[1..]);
      FieldsInnerNonEmpty(t);
      FieldsHeadNonEmpty(t);
    } else {
      FieldsInnerNonEmpty(s[1..]);
    }
  }

  /** A string that does not start with a space has a non-empty first
      piece, unless it has only one piece. */
  lemma FieldsHeadNonEmpty(s: string)
    requires s == [] || s[0] != ' '
    ensures |Fields(s)| > 1 ==> Fields(s)[0] != ""
  {
  }

  /** Every name split(" +") returns is free of spaces, only the first one
      can be empty, and no names at all come back exactly for a non-empty
      string of spaces. */
  lemma SplitProperties(s: string)
    ensures |Split(s)| >= 1 || ' ' in s
    ensures forall k :: 0 <= k < |Split(s)| ==> ' ' !in Split(s)[k]
    ensures forall k :: 0 < k < |Split(s)| ==> Split(s)[k] != ""
    ensures Split(s) == [] <==> s != [] && forall k :: 0 <= k < |s| ==> s[k] == ' '
  {
    if ' ' in s {
      FieldsInnerNonEmpty(s);
      var f := Fields(s);
      var r := DropTrailingEmpty(f);
      forall k | 0 < k < |r|
        ensures r[k] != ""
      {
        assert r[k] == f[k];
      }
      if r == [] {
        assert forall k :: 0 <= k < |f| ==> f[k] == "";
        FieldsAllEmpty(s);
      }
      if s != [] && forall k :: 0 <= k < |s| ==> s[k] == ' ' {
        AllSpacesSplit(s);
      }
    } else if s != [] {
      assert s[0] != ' ';
    }
  }

  /** The leading spaces trimmed away leave nothing exactly when the text is
      all spaces. */
  lemma {:induction false} TrimmedAway(t: string)
    ensures TrimLeadingSpaces(t) == [] <==> forall k :: 0 <= k < |t| ==> t[k] == ' '
    decreases |t|
  {
    if |t| > 0 && t[0] == ' ' {
      TrimmedAway(t[1..]);
      assert forall k :: 1 <= k < |t| ==> t[k] == t[1..][k - 1];
    }
  }

  /** Only a string of spaces has no non-empty piece. */
  lemma {:induction false} FieldsAllEmpty(s: string)
    ensures (forall k :: 0 <= k < |Fields(s)| ==> Fields(s)[k] == "") ==> forall k :: 0 <= k < |s| ==> s[k] == ' '
    decreases |s|
  {
    if |s| > 0 && s[0] == ' ' {
      var t := TrimLeadingSpaces(s[1..]);
      assert Fields(s) == [""] + Fields(t);
      if forall k :: 0 <= k < |Fields(s)| ==> Fields(s)[k] == "" {
        forall k | 0 <= k < |Fields(t)|
          ensures Fields(t)[k] == ""
        {
          assert Fields(t)[k] == Fields(s)[k + 1];
        }
        FieldsAllEmpty(t);
        assert t == [];
        TrimmedAway(s[1..]);
        assert forall k :: 1 <= k < |s| ==> s[k] == s[1..][k - 1];
      }
    } else if |s| > 0 {
      assert Fields(s)[0] == [s[0]] + Fields(s[1..])[0];
    }
  }

  /** A non-empty string of spaces splits into no names. */
  lemma AllSpacesSplit(s: string)
    requires s != [] && forall k :: 0 <= k < |s| ==> s[k] == ' '
    ensures Split(s) == []
  {
    assert s[0] == ' ';
    assert forall k :: 0 <= k < |s[1..]| ==> s[1..][k] == s[k + 1];
    TrimmedAway(s[1..]);
    assert Fields(s) == ["", ""];
  }

  /** split(" +") keeps an empty first name for a leading space, drops
      trailing spaces, returns no names for a string of spaces and one empty
      name for the empty string. */
  lemma SplitEdgeCases()
    ensures Split("") == [""]
    ensures Split("  ") == []
    ensures Split("x  y ") == ["x", "y"]
  {
    assert ' ' in "  " && ' ' in "x  y ";
    FieldsOfPrefix("y", "");
    assert "y" + [' '] + "" == "y ";
    assert "  y "[1..] == " y " && TrimLeadingSpaces(" y ") == "y ";
    assert Fields("  y ") == ["", "y", ""];
    assert "x  y "[1..] == "  y " && "x  y "[0] == 'x';
    assert ['x'] + "" == "x";
    assert ["", "y", ""][1..] == ["y", ""];
    assert Fields("x  y ") == [['x'] + ""] + ["y", ""];
  }

  /** A leading space gives an empty first name. */
  lemma SplitLeadingSpace()
    ensures Split(" x") == ["", "x"]
  {
    assert ' ' in " x";
    assert " x"[1..] == "x";
    FieldsOfName("x");
  }

  /** Names joined with single spaces. */
  function Join(names: seq<string>): string
    requires |names| >= 1
  {
    if |names| == 1 then names[0] else names[0] + " " + Join(names[1..])
  }

  /** A piece without spaces followed by a space and a text that does not
      start with a space splits off as the first piece. */
  lemma {:induction false} FieldsOfPrefix(name: string, t: string)
    requires ' ' !in name
    requires t == [] || t[0] != ' '
    ensures Fields(name + [' '] + t) == [name] + Fields(t)
    decreases |name|
  {
    if |name| == 0 {
      assert [' '] + t == name + [' '] + t;
      assert ([' '] + t)[1..] == t;
      assert TrimLeadingSpaces(t) == t;
    } else {
      var s := name + [' '] + t;
      assert s[0] == name[0];
      assert s[1..] == name[1..] + [' '] + t;
      FieldsOfPrefix(name[1..], t);
      assert [name[0]] + name[1..] == name;
    }
  }

  /** A text without spaces is one piece. */
  lemma {:induction false} FieldsOfName(name: string)
    requires ' ' !in name
    ensures Fields(name) == [name]
    decreases |name|
  {
    if |name| > 0 {
      FieldsOfName(name[1..]);
      assert [name[0]] + name[1..] == name;
    }
  }

  /** Splitting names joined by single spaces gives the names back, when each
      is non-empty and free of spaces. */
  lemma {:induction false} SplitJoin(names: seq<string>)
    requires |names| >= 1
    requires forall k :: 0 <= k < |names| ==> names[k] != [] && ' ' !in names[k]
    ensures Split(Join(names)) == names
  {
    if |names| == 1 {
    } else {
      JoinFields(names);
      assert Join(names)[|names[0]|] == ' ';
      assert ' ' in Join(names);
    }
  }

  /** The pieces of joined names are the names. */
  lemma {:induction false} JoinFields(names: seq<string>)
    requires |names| >= 1
    requires forall k :: 0 <= k < |names| ==> names[k] != [] && ' ' !in names[k]
    ensures Fields(Join(names)) == names
    ensures Join(names) != [] && Join(names)[0] != ' '
    ensures |Join(names)| >= |names[0]|
    ensures |names| > 1 ==> |Join(names)| > |names[0]| && Join(names)[|names[0]|] == ' '
    decreases |names|
  {
    if |names| == 1 {
      FieldsOfName(names[0]);
    } else {
      var rest := Join(names[1..]);
      JoinFields(names[1..]);
      assert names[0] + " " + rest == names[0] + [' '] + rest;
      FieldsOfPrefix(names[0], rest);
      assert [names[0]] + names[1..] == names;
    }
  }

  // ---- getFormatted ----

  /** Character.toUpperCase on the ASCII letters; other characters are kept. */
  function ToUpper(c: char): char
  {
    if 'a' <= c <= 'z' then (c as int - 32) as char else c
  }

  function UpperCase(s: string): (r: string)
    ensures |r| == |s| && forall k :: 0 <= k < |s| ==> r[k] == ToUpper(s[k])
  {
    seq(|s|, k requires 0 <= k < |s| => ToUpper(s[k]))
  }

  /** A name longer than one character gets its first character uppercased;
      a shorter one is uppercased whole. */
  function Capitalize(name: string): (r: string)
    ensures |r| == |name|
    ensures |name| > 0 ==> r[0] == ToUpper(name[0]) && r[1..] == name[1..]
  {
    if |name| > 1 then [ToUpper(name[0])] + name[1..] else UpperCase(name)
  }

  /** Capitalising keeps the length, uppercases the first character and
      keeps the rest. */
  lemma CapitalizeProperties(name: string)
    ensures |Capitalize(name)| == |name|
    ensures |name| > 0 ==> Capitalize(name)[0] == ToUpper(name[0])
    ensures |name| == 0 || Capitalize(name)[1..] == name[1..]
    ensures Capitalize(Capitalize(name)) == Capitalize(name)
  {
    if |name| == 1 {
      assert Capitalize(name) == [ToUpper(name[0])];
    }
  }

  /** One "Name: value, " segment. */
  function Segment(name: string, value: string): string
  {
    Capitalize(name) + ": " + value + ", "
  }

  /** The segments of the pairs, in order. */
  function Formatted(names: seq<string>, values: seq<string>): string
    requires |names| == |values|
  {
    if |names| == 0 then ""
    else Formatted(names[..|names| - 1], values[..|values| - 1]) + Segment(names[|names| - 1], values[|values| - 1])
  }

  /** Formatting a concatenation formats each part: the output is the
      in-order concatenation of the segments. */
  lemma {:induction false} FormattedConcat(n1: seq<string>, v1: seq<string>, n2: seq<string>, v2: seq<string>)
    requires |n1| == |v1| && |n2| == |v2|
    ensures Formatted(n1 + n2, v1 + v2) == Formatted(n1, v1) + Formatted(n2, v2)
    decreases |n2|
  {
    if |n2| == 0 {
      assert n1 + n2 == n1 && v1 + v2 == v1;
    } else {
      var m, w := n2[..|n2| - 1], v2[..|v2| - 1];
      var seg := Segment(n2[|n2| - 1], v2[|v2| - 1]);
      var n, v := n1 + n2, v1 + v2;
      assert n[..|n| - 1] == n1 + m;
      assert v[..|v| - 1] == v1 + w;
      assert n[|n| - 1] == n2[|n2| - 1] && v[|v| - 1] == v2[|v2| - 1];
      FormattedLast(n, v);
      assert Formatted(n, v) == Formatted(n1 + m, v1 + w) + seg;
      FormattedLast(n2, v2);
      assert Formatted(n2, v2) == Formatted(m, w) + seg;
      FormattedConcat(n1, v1, m, w);
      Associate(Formatted(n1, v1), Formatted(m, w), seg);
    }
  }

  /** Formatted of a non-empty list is that of its front plus the last
      segment. */
  lemma FormattedLast(n: seq<string>, v: seq<string>)
    requires |n| == |v| > 0
    ensures Formatted(n, v) == Formatted(n[..|n| - 1], v[..|v| - 1]) + Segment(n[|n| - 1], v[|v| - 1])
  {
  }

  /** The formatted prefix of length i + 1 extends that of length i by the
      segment of pair i. */
  lemma FormattedPrefixStep(n: seq<string>, v: seq<string>, i: nat)
    requires |n| == |v| && i < |n|
    ensures Formatted(n[..i + 1], v[..i + 1]) == Formatted(n[..i], v[..i]) + Segment(n[i], v[i])
  {
    assert n[..i + 1][..i] == n[..i];
    assert v[..i + 1][..i] == v[..i];
  }

  lemma Associate(a: string, b: string, c: string)
    ensures (a + b) + c == a + (b + c)
  {
  }

  /** One loop step of getFormatted appends the segment of the pair. */
  lemma AppendSegment(before: string, name: string, value: string, after: string)
    requires |name| > 1 ==> after == before + (UpperCase([name[0]]) + name[1..]) + ": " + value + ", "
    requires |name| <= 1 ==> after == before + UpperCase(name) + ": " + value + ", "
    ensures after == before + Segment(name, value)
  {
    var cap := if |name| > 1 then UpperCase([name[0]]) + name[1..] else UpperCase(name);
    if |name| > 1 {
      assert UpperCase([name[0]]) == [ToUpper(name[0])];
    }
    assert cap == Capitalize(name);
    assert after == before + cap + ": " + value + ", ";
    Regroup(before, cap, ": ", value, ", ");
  }

  lemma Regroup(a: string, b: string, c: string, d: string, e: string)
    ensures a + b + c + d + e == a + (b + c + d + e)
  {
  }

  /** getFormatted: throws IllegalArgumentException when the number of names
      differs from the number of values; otherwise appends one segment per
      pair, in order. */
  method GetFormatted(names: string, variables: seq<string>) returns (r: Result<string>)
    ensures r.Err? <==> |Split(names)| != |variables|
    ensures r.Err? ==> r.error == IllegalArgument
    ensures r.Ok? ==> r.value == Formatted(Split(names), variables)
  {
    var formatted := "";
    var namesArr := Split(names);
    if |namesArr| != |variables| {
      return Err(IllegalArgument);
    }
    for i := 0 to |namesArr|
      invariant formatted == Formatted(namesArr[..i], variables[..i])
    {
      var currentName := namesArr[i];
      var currentVar := variables[i];
      ghost var before := formatted;
      if |currentName| > 1 {
        var n := UpperCase([currentName[0]]) + currentName[1..];
        formatted := formatted + n + ": " + currentVar + ", ";
      } else {
        formatted := formatted + UpperCase(currentName) + ": " + currentVar + ", ";
      }
      AppendSegment(before, currentName, currentVar, formatted);
      FormattedPrefixStep(namesArr, variables, i);
    }
    assert namesArr[..|namesArr|] == namesArr;
    assert variables[..|variables|] == variables;
    return Ok(formatted);
  }

  /** The documented example "yaw pitch roll" splits into its three names. */
  lemma SplitExample()
    ensures Split("yaw pitch roll") == ["yaw", "pitch", "roll"]
  {
    var names := ["yaw", "pitch", "roll"];
    assert Join(names[2..]) == "roll";
    assert Join(names[1..]) == "pitch roll";
    assert Join(names) == "yaw pitch roll";
    SplitJoin(names);
  }

  /** ... which with three values format as "Yaw: 1, Pitch: 2, Roll: 3, ". */
  lemma FormattedExample()
    ensures Formatted(["yaw", "pitch", "roll"], ["1", "2", "3"]) == "Yaw: 1, Pitch: 2, Roll: 3, "
  {
    SegmentExamples();
    var names, values := ["yaw", "pitch", "roll"], ["1", "2", "3"];
    var a := Formatted(names[..1], values[..1]);
    var b := Formatted(names[..2], values[..2]);
    assert a == "Yaw: 1, " by {
      FormattedLast(names[..1], values[..1]);
      assert names[..1][..0] == [] && values[..1][..0] == [];
      assert names[..1][0] == "yaw" && values[..1][0] == "1";
    }
    assert b == a + "Pitch: 2, " by {
      FormattedLast(names[..2], values[..2]);
      assert names[..2][..1] == names[..1] && values[..2][..1] == values[..1];
      assert names[..2][1] == "pitch" && values[..2][1] == "2";
    }
    assert Formatted(names, values) == b + "Roll: 3, " by {
      FormattedLast(names, values);
      assert names[..2] == names[..|names| - 1] && values[..2] == values[..|values| - 1];
    }
    assert Formatted(names, values) == "Yaw: 1, Pitch: 2, Roll: 3, ";
  }

  lemma SegmentExamples()
    ensures Segment("yaw", "1") == "Yaw: 1, "
    ensures Segment("pitch", "2") == "Pitch: 2, "
    ensures Segment("roll", "3") == "Roll: 3, "
    ensures "Yaw: 1, " + "Pitch: 2, " + "Roll: 3, " == "Yaw: 1, Pitch: 2, Roll: 3, "
  {
  }
}
