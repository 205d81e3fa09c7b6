/**
  Go's `strings.Split(s, ",")`: the pieces of `s` between commas, in order.
  A string with k commas has k + 1 pieces; consecutive, leading or trailing
  commas produce empty pieces, and the empty string has the single piece "".
  `Join` is its inverse, `strings.Join(parts, ",")`.
 */
module GoStrings {

  /** True when `s` holds no comma, i.e. `s` is a single piece. */
  predicate CommaFree(s: string) {
    ',' !in s
  }

  /** The comma-separated pieces of `s`; there is always at least one, and none contains a comma. */
  function Split(s: string): (parts: seq<string>)
    ensures |parts| >= 1
    ensures forall i :: 0 <= i < |parts| ==> CommaFree(parts[i])
    decreases |s|
  {
    if s == [] then [""]
    else if s[0] == ',' then [""] + Split(s[1..])
    else
      var rest := Split(s[1..]);
      [[s[0]] + rest[0]] + rest[1..]
  }

  /** The pieces glued back together with a comma between neighbours. */
  function Join(parts: seq<string>): string
    requires |parts| >= 1
  {
    if |parts| == 1 then parts[0] else parts[0] + "," + Join(parts[1..])
  }

  /** Prepending a character to the first piece prepends it to the joined string. */
  lemma {:induction false} JoinExtendFirst(c: char, parts: seq<string>)
    requires |parts| >= 1
    ensures Join([[c] + parts[0]] + parts[1..]) == [c] + Join(parts)
  {
    var ext := [[c] + parts[0]] + parts[1..];
    assert ext[1..] == parts[1..];
  }

  /** Gluing the pieces back together gives the original string. */
  lemma {:induction false} JoinSplit(s: string)
    ensures Join(Split(s)) == s
    decreases |s|
  {
    if s == [] {
    } else if s[0] == ',' {
      JoinSplit(s[1..]);
      var parts := [""] + Split(s[1..]);
      assert parts[1..] == Split(s[1..]);
      assert s == [','] + s[1..];
    } else {
      JoinSplit(s[1..]);
      JoinExtendFirst(s[0], Split(s[1..]));
      assert s == [s[0]] + s[1..];
    }
  }

  /** Splitting at one comma splits the two sides independently. */
  lemma {:induction false} SplitAtComma(a: string, b: string)
    ensures Split(a + "," + b) == Split(a) + Split(b)
    decreases |a|
  {
    var s := a + "," + b;
    if a == [] {
      assert s == [','] + b;
      assert s[1..] == b;
    } else if a[0] == ',' {
      assert s[1..] == a[1..] + "," + b;
      SplitAtComma(a[1..], b);
    } else {
      assert s[0] == a[0];
      assert s[1..] == a[1..] + "," + b;
      SplitAtComma(a[1..], b);
      var ra := Split(a[1..]);
      var rest := Split(s[1..]);
      assert rest == ra + Split(b);
      assert rest[0] == ra[0];
      assert rest[1..] == ra[1..] + Split(b);
    }
  }

  /** A string without commas is one piece. */
  lemma {:induction false} SplitCommaFree(s: string)
    requires CommaFree(s)
    ensures Split(s) == [s]
    decreases |s|
  {
    if s != [] {
      assert s[0] != ',';
      assert CommaFree(s[1..]) by {
        forall i | 0 <= i < |s[1..]| ensures s[1..][i] != ',' {
          assert s[1..][i] == s[i + 1];
        }
      }
      SplitCommaFree(s[1..]);
      assert s == [s[0]] + s[1..];
    }
  }

  /** Splitting a join of comma-free pieces gives the pieces back. */
  lemma {:induction false} SplitJoin(parts: seq<string>)
    requires |parts| >= 1
    requires forall i :: 0 <= i < |parts| ==> CommaFree(parts[i])
    ensures Split(Join(parts)) == parts
    decreases |parts|
  {
    SplitCommaFree(parts[0]);
    if |parts| > 1 {
      SplitJoin(parts[1..]);
      SplitAtComma(parts[0], Join(parts[1..]));
      assert [parts[0]] + parts[1..] == parts;
    }
  }

  /** Two neighbouring commas leave an empty piece between them. */
  lemma DoubleCommaGivesEmptyPiece(a: string, b: string)
    ensures "" in Split(a + ",," + b)
  {
    assert a + ",," + b == a + "," + ("," + b);
    SplitAtComma(a, "," + b);
    SplitAtComma("", b);
    assert Split(a + ",," + b) == Split(a) + ([""] + Split(b));
    assert Split(a + ",," + b)[|Split(a)|] == "";
  }

  /** A trailing comma leaves an empty last piece. */
  lemma TrailingCommaGivesEmptyPiece(a: string)
    ensures Split(a + ",")[|Split(a + ",")| - 1] == ""
  {
    assert a + "," == a + "," + "";
    SplitAtComma(a, "");
  }

  /** The number of commas in `s`. */
  function CommaCount(s: string): nat {
    if s == [] then 0 else (if s[0] == ',' then 1 else 0) + CommaCount(s[1..])
  }

  /** There is one more piece than there are commas. */
  lemma {:induction false} SplitCount(s: string)
    ensures |Split(s)| == CommaCount(s) + 1
    decreases |s|
  {
    if s != [] {
      SplitCount(s[1..]);
    }
  }

  /** Only the single piece "" joins to the empty string. */
  lemma JoinEmpty(parts: seq<string>)
    requires |parts| >= 1
    ensures Join(parts) == "" <==> parts == [""]
  {
    if |parts| > 1 {
      assert Join(parts)[|parts[0]|] == ',';
    }
  }
}
