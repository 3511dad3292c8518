/** Which licence terms apply, `scripts/third_party_notices/generate.py`: an
    expression's alternatives, and the preferred one that policy and texts allow. */
module LicenceElection {
  import opened Prelude
  import opened Lexicographic
  import opened Sorting
  import opened Spdx

  /** Licences that all apply. */
  type Branch = seq<Licence>

  function Product(left: seq<Branch>, right: seq<Branch>): seq<Branch> {
    if left == [] then [] else Row(left[0], right) + Product(left[1..], right)
  }

  function Row(a: Branch, right: seq<Branch>): seq<Branch> {
    if right == [] then [] else [a + right[0]] + Row(a, right[1..])
  }

  /** The expression as alternatives. */
  function Branches(t: Tree): seq<Branch> {
    match t
    case Leaf(l) => [[l]]
    case Or(a, b) => Branches(a) + Branches(b)
    case And(a, b) => Product(Branches(a), Branches(b))
  }

  /** What the expression means, when each licence is acceptable or not. */
  predicate Holds(t: Tree, ok: Licence -> bool) {
    match t
    case Leaf(l) => ok(l)
    case Or(a, b) => Holds(a, ok) || Holds(b, ok)
    case And(a, b) => Holds(a, ok) && Holds(b, ok)
  }

  predicate AllOk(branch: Branch, ok: Licence -> bool) {
    forall i :: 0 <= i < |branch| ==> ok(branch[i])
  }

  ghost predicate SomeOk(branches: seq<Branch>, ok: Licence -> bool) {
    exists i :: 0 <= i < |branches| && AllOk(branches[i], ok)
  }

  lemma AllOkSum(a: Branch, b: Branch, ok: Licence -> bool)
    ensures AllOk(a + b, ok) <==> AllOk(a, ok) && AllOk(b, ok)
  {
    if AllOk(a + b, ok) {
      assert forall i :: 0 <= i < |a| ==> a[i] == (a + b)[i];
      assert forall i :: 0 <= i < |b| ==> b[i] == (a + b)[|a| + i];
    }
  }

  lemma SomeOkSum(a: seq<Branch>, b: seq<Branch>, ok: Licence -> bool)
    ensures SomeOk(a + b, ok) <==> SomeOk(a, ok) || SomeOk(b, ok)
  {
    if i :| 0 <= i < |a| && AllOk(a[i], ok) { assert (a + b)[i] == a[i]; }
    if i :| 0 <= i < |b| && AllOk(b[i], ok) { assert (a + b)[|a| + i] == b[i]; }
  }

  lemma {:induction false} SomeOkHead(s: seq<Branch>, ok: Licence -> bool)
    requires s != []
    ensures SomeOk(s, ok) <==> AllOk(s[0], ok) || SomeOk(s[1..], ok)
  {
    assert s == [s[0]] + s[1..];
    SomeOkSum([s[0]], s[1..], ok);
    assert SomeOk([s[0]], ok) <==> AllOk([s[0]][0], ok);
  }

  lemma {:induction false} RowMeans(a: Branch, right: seq<Branch>, ok: Licence -> bool)
    ensures SomeOk(Row(a, right), ok) <==> AllOk(a, ok) && SomeOk(right, ok)
  {
    if right != [] {
      RowMeans(a, right[1..], ok);
      AllOkSum(a, right[0], ok);
      SomeOkHead(right, ok);
      SomeOkHead(Row(a, right), ok);
      assert Row(a, right)[1..] == Row(a, right[1..]);
    }
  }

  lemma {:induction false} ProductMeans(left: seq<Branch>, right: seq<Branch>, ok: Licence -> bool)
    ensures SomeOk(Product(left, right), ok) <==> SomeOk(left, ok) && SomeOk(right, ok)
  {
    if left != [] {
      ProductMeans(left[1..], right, ok);
      RowMeans(left[0], right, ok);
      SomeOkSum(Row(left[0], right), Product(left[1..], right), ok);
      SomeOkHead(left, ok);
    }
  }

  /** The alternatives keep the expression's meaning. */
  lemma {:induction false} BranchesMean(t: Tree, ok: Licence -> bool)
    ensures Holds(t, ok) <==> SomeOk(Branches(t), ok)
  {
    match t
    case Leaf(l) =>
      assert Branches(t)[0] == [l];
      assert [l][0] == l;
      assert AllOk([l], ok) <==> ok(l);
    case Or(a, b) =>
      BranchesMean(a, ok);
      BranchesMean(b, ok);
      SomeOkSum(Branches(a), Branches(b), ok);
    case And(a, b) =>
      BranchesMean(a, ok);
      BranchesMean(b, ok);
      ProductMeans(Branches(a), Branches(b), ok);
  }

  // Preference

  const SPACE_WITH_SPACE: Text := [32, 87, 73, 84, 72, 32]

  function TokenText(t: Token): Text {
    match t
    case Open => [40]
    case Close => [41]
    case AndWord => [65, 78, 68]
    case OrWord => [79, 82]
    case WithWord => [87, 73, 84, 72]
    case Name(text) => text
  }

  function LicenceText(l: Licence): Text {
    match l.exception
    case None => l.name
    case Some(e) => l.name + SPACE_WITH_SPACE + TokenText(e)
  }

  function Texts(b: Branch): (r: seq<Text>)
    ensures |r| == |b| && forall i :: 0 <= i < |r| ==> r[i] == LicenceText(b[i])
  {
    seq(|b|, i requires 0 <= i < |b| => LicenceText(b[i]))
  }

  /** An alternative with its worst rank. */
  datatype Ranked = Ranked(worst: nat, branch: Branch)

  predicate Leq(x: Ranked, y: Ranked) {
    x.worst < y.worst
      || (x.worst == y.worst && (Texts(x.branch) == Texts(y.branch) || LexLessAll(Texts(x.branch), Texts(y.branch))))
  }

  lemma LeqTotal(x: Ranked, y: Ranked)
    ensures Leq(x, y) || Leq(y, x)
  {
    LexAllTotal(Texts(x.branch), Texts(y.branch));
  }

  lemma LeqTransitive(x: Ranked, y: Ranked, z: Ranked)
    requires Leq(x, y) && Leq(y, z)
    ensures Leq(x, z)
  {
    if LexLessAll(Texts(x.branch), Texts(y.branch)) && LexLessAll(Texts(y.branch), Texts(z.branch)) {
      LexAllTransitive(Texts(x.branch), Texts(y.branch), Texts(z.branch));
    }
  }

  predicate Ordered(s: seq<Ranked>) {
    forall i, j {:trigger s[i], s[j]} :: 0 <= i < j < |s| ==> Leq(s[i], s[j])
  }

  function InsertRanked(x: Ranked, s: seq<Ranked>): seq<Ranked> {
    if s == [] || Leq(x, s[0]) then [x] + s else [s[0]] + InsertRanked(x, s[1..])
  }

  function Sorted(s: seq<Ranked>): seq<Ranked> {
    if s == [] then [] else InsertRanked(s[0], Sorted(s[1..]))
  }

  lemma {:induction false} InsertOrders(x: Ranked, s: seq<Ranked>)
    requires Ordered(s)
    ensures Ordered(InsertRanked(x, s)) && forall y :: y in InsertRanked(x, s) <==> y == x || y in s
  {
    hide Leq;
    if s == [] {
    } else if Leq(x, s[0]) {
      forall i | 0 <= i < |s| ensures Leq(x, s[i]) {
        if i > 0 { LeqTransitive(x, s[0], s[i]); }
      }
    } else {
      LeqTotal(x, s[0]);
      InsertOrders(x, s[1..]);
      var rest := InsertRanked(x, s[1..]);
      assert s == [s[0]] + s[1..];
      forall i | 0 <= i < |rest| ensures Leq(s[0], rest[i]) {
        assert rest[i] in rest;
        assert rest[i] == x || rest[i] in s[1..];
      }
    }
  }

  lemma {:induction false} SortedOrders(s: seq<Ranked>)
    ensures Ordered(Sorted(s)) && forall y :: y in Sorted(s) <==> y in s
  {
    if s != [] {
      SortedOrders(s[1..]);
      InsertOrders(s[0], Sorted(s[1..]));
      assert s == [s[0]] + s[1..];
    }
  }

  // Election

  /** The policy: allowed licences, most preferred first. */
  type Ranks = map<Licence, nat>

  /** The first separator at `from` or after. */
  function FirstSeparator(text: Text, from: nat): (r: Option<nat>)
    ensures r.Some? ==> from <= r.value && r.value + |SPACE_WITH_SPACE| <= |text|
    decreases |text| - from
  {
    if from + |SPACE_WITH_SPACE| > |text| then None
    else if text[from..from + |SPACE_WITH_SPACE|] == SPACE_WITH_SPACE then Some(from)
    else FirstSeparator(text, from + 1)
  }

  /** A licence's text, split at every separator. */
  function Parts(text: Text): seq<Text>
    decreases |text|
  {
    match FirstSeparator(text, 0)
    case None => [text]
    case Some(i) => [text[..i]] + Parts(text[i + |SPACE_WITH_SPACE|..])
  }

  /** Every part of the licence's text is identified by some text shipped. */
  predicate HasText(l: Licence, identified: Text -> bool) {
    forall part :: part in Parts(LicenceText(l)) ==> identified(part)
  }

  // What that means for a licence of words, as the tokens of an expression are

  predicate IsWord(text: Text) {
    32 !in text
  }

  predicate OfWords(l: Licence) {
    IsWord(l.name) && (l.exception.Some? ==> IsWord(TokenText(l.exception.value)))
  }

  predicate TreeOfWords(t: Tree) {
    match t
    case Leaf(l) => OfWords(l)
    case Or(a, b) => TreeOfWords(a) && TreeOfWords(b)
    case And(a, b) => TreeOfWords(a) && TreeOfWords(b)
  }

  lemma {:induction false} NoSeparator(text: Text, from: nat)
    requires IsWord(text)
    ensures FirstSeparator(text, from) == None
    decreases |text| - from
  {
    if from + |SPACE_WITH_SPACE| <= |text| {
      assert text[from] in text && text[from..from + |SPACE_WITH_SPACE|][0] == text[from];
      NoSeparator(text, from + 1);
    }
  }

  lemma {:induction false} SeparatorAfter(name: Text, rest: Text, from: nat)
    requires IsWord(name) && from <= |name|
    ensures FirstSeparator(name + SPACE_WITH_SPACE + rest, from) == Some(|name|)
    decreases |name| - from
  {
    var text := name + SPACE_WITH_SPACE + rest;
    if from == |name| {
      assert text[from..from + |SPACE_WITH_SPACE|] == SPACE_WITH_SPACE;
    } else {
      assert name[from] in name && text[from..from + |SPACE_WITH_SPACE|][0] == name[from];
      SeparatorAfter(name, rest, from + 1);
    }
  }

  /** A licence needs its own text, and its exception, if it has one, a text too. */
  lemma HasTextMeans(l: Licence, identified: Text -> bool)
    requires OfWords(l)
    ensures HasText(l, identified) <==>
              identified(l.name) && (l.exception.Some? ==> identified(TokenText(l.exception.value)))
  {
    match l.exception
    case None =>
      NoSeparator(l.name, 0);
      assert Parts(LicenceText(l)) == [l.name];
    case Some(e) =>
      var word := TokenText(e);
      SeparatorAfter(l.name, word, 0);
      NoSeparator(word, 0);
      assert LicenceText(l)[|l.name| + |SPACE_WITH_SPACE|..] == word && LicenceText(l)[..|l.name|] == l.name;
      assert Parts(LicenceText(l)) == [l.name, word];
  }

  lemma {:induction false} AtomOfWords(s: seq<Token>, t: Tree)
    requires AtomDerives(s, t) && forall w :: w in s ==> IsWord(TokenText(w))
    ensures TreeOfWords(t)
    decreases |s|, 0
  {
    if t.Leaf? && s == LeafTokens(t.licence) {
      assert s[0] in s && TokenText(s[0]) == t.licence.name;
      if t.licence.exception.Some? { assert s[2] in s; }
    } else {
      OrOfWords(s[1..|s| - 1], t);
    }
  }

  lemma {:induction false} AndOfWords(s: seq<Token>, t: Tree)
    requires AndDerives(s, t) && forall w :: w in s ==> IsWord(TokenText(w))
    ensures TreeOfWords(t)
    decreases |s|, 1
  {
    if AtomDerives(s, t) {
      AtomOfWords(s, t);
    } else {
      var i :| 0 <= i < |s| && s[i] == AndWord && AndDerives(s[..i], t.left) && AtomDerives(s[i + 1..], t.right);
      AndOfWords(s[..i], t.left);
      AtomOfWords(s[i + 1..], t.right);
    }
  }

  lemma {:induction false} OrOfWords(s: seq<Token>, t: Tree)
    requires OrDerives(s, t) && forall w :: w in s ==> IsWord(TokenText(w))
    ensures TreeOfWords(t)
    decreases |s|, 2
  {
    if AndDerives(s, t) {
      AndOfWords(s, t);
    } else {
      var i :| 0 <= i < |s| && s[i] == OrWord && OrDerives(s[..i], t.left) && AndDerives(s[i + 1..], t.right);
      OrOfWords(s[..i], t.left);
      AndOfWords(s[i + 1..], t.right);
    }
  }

  /** Allowed, with a text of its own and one of its exception shipped. */
  function OwnTextsBy(rank: Ranks, identified: Text -> bool): Licence -> bool {
    l => l in rank && identified(l.name) && (l.exception.Some? ==> identified(TokenText(l.exception.value)))
  }

  lemma {:induction false} UsableMeans(t: Tree, rank: Ranks, identified: Text -> bool)
    requires TreeOfWords(t)
    ensures Holds(t, UsableBy(rank, identified)) <==> Holds(t, OwnTextsBy(rank, identified))
  {
    match t
    case Leaf(l) => HasTextMeans(l, identified);
    case Or(a, b) =>
      UsableMeans(a, rank, identified);
      UsableMeans(b, rank, identified);
    case And(a, b) =>
      UsableMeans(a, rank, identified);
      UsableMeans(b, rank, identified);
  }

  lemma UsableAsDeclared(declared: seq<Token>, rank: Ranks, identified: Text -> bool)
    requires Parse(declared).Some? && forall w :: w in declared ==> IsWord(TokenText(w))
    ensures var t := Parse(declared).value;
      Holds(t, UsableBy(rank, identified)) <==> Holds(t, OwnTextsBy(rank, identified))
  {
    var t := Parse(declared).value;
    ParseExact(declared, t);
    OrOfWords(declared, t);
    UsableMeans(t, rank, identified);
  }

  function AllowedBy(rank: Ranks): Licence -> bool {
    l => l in rank
  }

  function ShippedWith(identified: Text -> bool): Licence -> bool {
    l => HasText(l, identified)
  }

  /** Allowed, and its text is present. */
  function UsableBy(rank: Ranks, identified: Text -> bool): Licence -> bool {
    l => l in rank && HasText(l, identified)
  }

  lemma UsableSplits(b: Branch, rank: Ranks, identified: Text -> bool)
    ensures AllOk(b, UsableBy(rank, identified)) <==> AllOk(b, AllowedBy(rank)) && AllOk(b, ShippedWith(identified))
  {
    if AllOk(b, UsableBy(rank, identified)) {
      forall i | 0 <= i < |b| ensures AllowedBy(rank)(b[i]) && ShippedWith(identified)(b[i]) {
        assert UsableBy(rank, identified)(b[i]);
      }
    }
  }

  function Worst(b: Branch, rank: Ranks): (w: nat)
    requires b != [] && AllOk(b, AllowedBy(rank))
    ensures (forall i :: 0 <= i < |b| ==> rank[b[i]] <= w) && exists i :: 0 <= i < |b| && rank[b[i]] == w
  {
    assert AllowedBy(rank)(b[0]);
    if |b| == 1 then rank[b[0]]
    else
      var w := Worst(b[1..], rank);
      assert forall i :: 0 <= i < |b| - 1 ==> b[1..][i] == b[i + 1];
      if w < rank[b[0]] then rank[b[0]] else w
  }

  lemma {:induction false} ProductNonEmpty(left: seq<Branch>, right: seq<Branch>)
    requires forall a :: a in left ==> a != []
    ensures forall b :: b in Product(left, right) ==> b != []
  {
    if left != [] {
      assert left[0] in left && forall a :: a in left[1..] ==> a in left;
      ProductNonEmpty(left[1..], right);
      RowNonEmpty(left[0], right);
    }
  }

  lemma {:induction false} RowNonEmpty(a: Branch, right: seq<Branch>)
    requires a != []
    ensures forall b :: b in Row(a, right) ==> b != []
  {
    if right != [] { RowNonEmpty(a, right[1..]); }
  }

  /** No alternative is empty, so each has a worst rank. */
  lemma {:induction false} BranchesNonEmpty(t: Tree)
    ensures forall b :: b in Branches(t) ==> b != []
  {
    match t
    case Leaf(_) =>
    case Or(a, b) =>
      BranchesNonEmpty(a);
      BranchesNonEmpty(b);
    case And(a, b) =>
      BranchesNonEmpty(a);
      ProductNonEmpty(Branches(a), Branches(b));
  }

  function Rank(b: Branch, rank: Ranks): Ranked
    requires b != [] && AllOk(b, AllowedBy(rank))
  {
    Ranked(Worst(b, rank), b)
  }

  /** The licences of a branch, each once, in order of first mention. */
  function Distinct(b: Branch): (r: Branch)
    ensures NoDup(r) && forall l :: l in r <==> l in b
  {
    if b == [] then []
    else
      var rest, last := b[..|b| - 1], b[|b| - 1];
      assert b == rest + [last];
      Distinct(rest) + if last in rest then [] else [last]
  }

  datatype Election = Elected(terms: Branch) | NoneAllowed | NoText

  /** The alternative to redistribute under: usable, with no better usable one. */
  ghost predicate IsPreferred(branches: seq<Branch>, rank: Ranks, identified: Text -> bool, b: Branch) {
    && b in branches && b != [] && AllOk(b, AllowedBy(rank)) && AllOk(b, ShippedWith(identified))
    && forall c :: c in branches && c != [] && AllOk(c, AllowedBy(rank)) && AllOk(c, ShippedWith(identified)) ==>
         Leq(Rank(b, rank), Rank(c, rank))
  }

  /** The allowed alternatives, ranked. */
  ghost predicate Collected(branches: seq<Branch>, rank: Ranks, allowed: seq<Ranked>) {
    && (forall b :: b in branches && b != [] && AllOk(b, AllowedBy(rank)) ==> Rank(b, rank) in allowed)
    && (forall x :: x in allowed ==>
          x.branch in branches && x.branch != [] && AllOk(x.branch, AllowedBy(rank)) && x == Rank(x.branch, rank))
  }

  method Collect(branches: seq<Branch>, rank: Ranks) returns (allowed: seq<Ranked>)
    requires forall b :: b in branches ==> b != []
    ensures Collected(branches, rank, allowed)
  {
    hide AllOk;
    allowed := [];
    for n := 0 to |branches|
      invariant Collected(branches[..n], rank, allowed)
    {
      var b := branches[n];
      assert b in branches;
      assert branches[..n + 1] == branches[..n] + [b];
      if AllOk(b, AllowedBy(rank)) {
        allowed := allowed + [Rank(b, rank)];
      }
    }
    assert branches[..|branches|] == branches;
  }

  /** The alternative at place `i` is shipped, and preferred to all others that are. */
  ghost predicate IsFirst(sorted: seq<Ranked>, identified: Text -> bool, b: Branch, i: nat)
    requires i < |sorted|
  {
    && sorted[i].branch == b && AllOk(b, ShippedWith(identified))
    && forall j :: 0 <= j < |sorted| && AllOk(sorted[j].branch, ShippedWith(identified)) ==>
         j == i || Leq(sorted[i], sorted[j])
  }

  /** The first shipped alternative in order of preference. */
  method FirstShipped(sorted: seq<Ranked>, identified: Text -> bool) returns (found: Option<Branch>)
    requires Ordered(sorted)
    ensures found.None? ==> forall i :: 0 <= i < |sorted| ==> !AllOk(sorted[i].branch, ShippedWith(identified))
    ensures found.Some? ==> exists i :: 0 <= i < |sorted| && IsFirst(sorted, identified, found.value, i)
  {
    hide AllOk, Leq;
    for i := 0 to |sorted|
      invariant forall j :: 0 <= j < i ==> !AllOk(sorted[j].branch, ShippedWith(identified))
    {
      if AllOk(sorted[i].branch, ShippedWith(identified)) {
        assert IsFirst(sorted, identified, sorted[i].branch, i);
        return Some(sorted[i].branch);
      }
    }
    found := None;
  }

  lemma Preferred(branches: seq<Branch>, rank: Ranks, identified: Text -> bool, allowed: seq<Ranked>,
                  sorted: seq<Ranked>, i: nat)
    requires Collected(branches, rank, allowed) && (forall y :: y in sorted <==> y in allowed) && i < |sorted|
    requires AllOk(sorted[i].branch, ShippedWith(identified))
    requires forall j :: 0 <= j < |sorted| && AllOk(sorted[j].branch, ShippedWith(identified)) ==>
               j == i || Leq(sorted[i], sorted[j])
    ensures IsPreferred(branches, rank, identified, sorted[i].branch)
  {
    assert sorted[i] in sorted && sorted[i] in allowed;
    var b := sorted[i].branch;
    forall c | c in branches && c != [] && AllOk(c, AllowedBy(rank)) && AllOk(c, ShippedWith(identified))
      ensures Leq(Rank(b, rank), Rank(c, rank))
    {
      assert Rank(c, rank) in sorted;
      var j :| 0 <= j < |sorted| && sorted[j] == Rank(c, rank);
      assert AllOk(sorted[j].branch, ShippedWith(identified));
    }
  }

  lemma UsableExists(t: Tree, rank: Ranks, identified: Text -> bool, b: Branch)
    requires IsPreferred(Branches(t), rank, identified, b)
    ensures Holds(t, UsableBy(rank, identified)) && Holds(t, AllowedBy(rank))
  {
    UsableSplits(b, rank, identified);
    var i :| 0 <= i < |Branches(t)| && Branches(t)[i] == b;
    BranchesMean(t, UsableBy(rank, identified));
    BranchesMean(t, AllowedBy(rank));
  }

  lemma NothingUsable(t: Tree, rank: Ranks, identified: Text -> bool, allowed: seq<Ranked>, sorted: seq<Ranked>)
    requires Collected(Branches(t), rank, allowed) && (forall y :: y in sorted <==> y in allowed)
    requires forall i :: 0 <= i < |sorted| ==> !AllOk(sorted[i].branch, ShippedWith(identified))
    ensures !Holds(t, UsableBy(rank, identified))
    ensures Holds(t, AllowedBy(rank)) <==> sorted != []
  {
    BranchesMean(t, UsableBy(rank, identified));
    BranchesMean(t, AllowedBy(rank));
    BranchesNonEmpty(t);
    forall i | 0 <= i < |Branches(t)|
      ensures !AllOk(Branches(t)[i], UsableBy(rank, identified))
    {
      var c := Branches(t)[i];
      assert c in Branches(t);
      UsableSplits(c, rank, identified);
      if AllOk(c, AllowedBy(rank)) {
        assert Rank(c, rank) in sorted;
        var j :| 0 <= j < |sorted| && sorted[j] == Rank(c, rank);
        assert !AllOk(sorted[j].branch, ShippedWith(identified));
      }
    }
    if sorted != [] {
      assert sorted[0] in sorted;
      var i :| 0 <= i < |Branches(t)| && Branches(t)[i] == sorted[0].branch;
      assert AllOk(Branches(t)[i], AllowedBy(rank));
    }
    if i :| 0 <= i < |Branches(t)| && AllOk(Branches(t)[i], AllowedBy(rank)) {
      assert Branches(t)[i] in Branches(t);
      assert Rank(Branches(t)[i], rank) in sorted;
    }
  }

  /** An expression elects terms exactly when it is true of the licences that are
      allowed and whose text is shipped, and then its preferred alternative. A
      malformed expression is an error. */
  method Elect(declared: seq<Token>, rank: Ranks, identified: Text -> bool)
    returns (election: Option<Election>, ghost branch: Branch)
    ensures election.None? <==> Parse(declared).None?
    ensures election.Some? ==>
      var t := Parse(declared).value;
      && (election.value.Elected? <==> Holds(t, UsableBy(rank, identified)))
      && ((forall w :: w in declared ==> IsWord(TokenText(w))) ==>
            (election.value.Elected? <==> Holds(t, OwnTextsBy(rank, identified))))
      && (election.value.NoneAllowed? <==> !Holds(t, AllowedBy(rank)))
      && (election.value.Elected? ==>
            IsPreferred(Branches(t), rank, identified, branch) && election.value.terms == Distinct(branch))
  {
    hide Parse, Holds, Branches, Collected, IsPreferred, Ordered, AllOk, Distinct, Leq, IsWord;
    branch := [];
    var tree := ParseSpdx(declared);
    if tree.None? { return None, branch; }
    var t := tree.value;
    if forall w :: w in declared ==> IsWord(TokenText(w)) { UsableAsDeclared(declared, rank, identified); }
    BranchesNonEmpty(t);
    var allowed := Collect(Branches(t), rank);
    SortedOrders(allowed);
    var sorted := Sorted(allowed);
    var found := FirstShipped(sorted, identified);
    if found.Some? {
      branch := found.value;
      ghost var i :| 0 <= i < |sorted| && IsFirst(sorted, identified, found.value, i);
      Preferred(Branches(t), rank, identified, allowed, sorted, i);
      UsableExists(t, rank, identified, branch);
      return Some(Elected(Distinct(found.value))), branch;
    }
    NothingUsable(t, rank, identified, allowed, sorted);
    if sorted == [] {
      return Some(NoneAllowed), branch;
    }
    election := Some(NoText);
  }
}
