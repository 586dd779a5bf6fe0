/** Selections from sequences that several components share. */
module Sequences {

  /** At most the first n elements. */
  function Prefix<T>(s: seq<T>, n: nat): seq<T> {
    if |s| <= n then s else s[..n]
  }

  /** The allowed entries, in order. */
  function Keep(xs: seq<string>, allowed: set<string>): (r: seq<string>)
  {
    if xs == [] then []
    else Keep(xs[..|xs| - 1], allowed) + if xs[|xs| - 1] in allowed then [xs[|xs| - 1]] else []
  }

  /** The first occurrence of each entry, in order. */
  function Distinct(xs: seq<string>): (r: seq<string>)
    ensures forall x :: x in r <==> x in xs
  {
    if xs == [] then []
    else
      var r := Distinct(xs[..|xs| - 1]);
      if xs[|xs| - 1] in r then r else r + [xs[|xs| - 1]]
  }

  predicate NoRepeats<T(==)>(xs: seq<T>) {
    forall i, j :: 0 <= i < j < |xs| ==> xs[i] != xs[j]
  }

  lemma {:induction false} DistinctHasNoRepeats(xs: seq<string>)
    ensures NoRepeats(Distinct(xs))
  {
    if xs != [] {
      DistinctHasNoRepeats(xs[..|xs| - 1]);
    }
  }

  lemma {:induction false} KeepOnlyAllowed(xs: seq<string>, allowed: set<string>)
    ensures forall x :: x in Keep(xs, allowed) <==> x in xs && x in allowed
  {
    if xs != [] {
      KeepOnlyAllowed(xs[..|xs| - 1], allowed);
    }
  }

  lemma {:induction false} NothingAllowed(plan: seq<string>)
    ensures Keep(plan, {}) == []
  {
    if plan != [] {
      NothingAllowed(plan[..|plan| - 1]);
    }
  }

  // ----- text joined and split at commas -----

  function Split(s: string): (parts: seq<string>)
    ensures parts != []
  {
    if s == "" then [""]
    else if s[0] == ',' then [""] + Split(s[1..])
    else var rest := Split(s[1..]); [[s[0]] + rest[0]] + rest[1..]
  }

  lemma {:induction false} SplitAtComma(a: string, b: string)
    ensures Split(a + "," + b) == Split(a) + Split(b)
  {
    var s := a + "," + b;
    if a == "" {
      assert s[1..] == b;
    } else {
      assert s[1..] == a[1..] + "," + b;
      SplitAtComma(a[1..], b);
    }
  }

  lemma {:induction false} NoCommaNoSplit(s: string)
    requires ',' !in s
    ensures Split(s) == [s]
  {
    if s != "" {
      NoCommaNoSplit(s[1..]);
      assert [s[0]] + s[1..] == s;
    }
  }

  /** The pieces of several texts, one text after the other. */
  function Pieces(texts: seq<string>): seq<string> {
    if texts == [] then [] else Split(texts[0]) + Pieces(texts[1..])
  }

  function Joined(texts: seq<string>): string {
    if texts == [] then "" else if |texts| == 1 then texts[0] else texts[0] + "," + Joined(texts[1..])
  }

  /** Splitting what was joined gives every text's own pieces, in order. */
  lemma {:induction false} JoinedReadsBack(texts: seq<string>)
    requires texts != []
    ensures Split(Joined(texts)) == Pieces(texts)
  {
    if |texts| == 1 {
      assert Pieces(texts[1..]) == [];
    } else {
      SplitAtComma(texts[0], Joined(texts[1..]));
      JoinedReadsBack(texts[1..]);
    }
  }

  /** The pieces are the texts themselves exactly if no text holds a comma. */
  lemma PiecesAreTextsExactlyWhen(texts: seq<string>)
    ensures Pieces(texts) == texts <==> forall text :: text in texts ==> ',' !in text
  {
    PiecesCount(texts);
    if forall text :: text in texts ==> ',' !in text {
      PiecesWithoutCommas(texts);
    }
  }

  lemma {:induction false} PiecesWithoutCommas(texts: seq<string>)
    requires forall text :: text in texts ==> ',' !in text
    ensures Pieces(texts) == texts
  {
    if texts != [] {
      NoCommaNoSplit(texts[0]);
      PiecesWithoutCommas(texts[1..]);
    }
  }

  lemma {:induction false} SplitCount(s: string)
    ensures |Split(s)| > 1 <==> ',' in s
  {
    if s != "" {
      SplitCount(s[1..]);
    }
  }

  lemma {:induction false} PiecesCount(texts: seq<string>)
    ensures |Pieces(texts)| >= |texts|
    ensures (exists text :: text in texts && ',' in text) ==> |Pieces(texts)| > |texts|
  {
    if texts != [] {
      SplitCount(texts[0]);
      PiecesCount(texts[1..]);
    }
  }
}
