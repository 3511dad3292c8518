/** SPDX licence expressions, `scripts/third_party_notices/generate.py`: the
    recursive-descent parser against the grammar of composite expressions in
    Annex D of the SPDX specification 2.3, where AND binds tighter than OR and both
    group to the left. The parser takes any token for an exception, so it is first
    matched with a grammar that does too, and then with the standard's. */
module Spdx {
  import opened Prelude

  /** A word, as its code points. */
  type Text = seq<nat>

  datatype Token = Open | Close | AndWord | OrWord | WithWord | Name(text: Text)

  /** A licence, possibly with an exception; the parser takes any token for one. */
  datatype Licence = Licence(name: Text, exception: Option<Token>)

  datatype Tree = Leaf(licence: Licence) | Or(left: Tree, right: Tree) | And(left: Tree, right: Tree)

  // The grammar the parser follows

  function LeafTokens(l: Licence): seq<Token> {
    [Name(l.name)] + match l.exception case None => [] case Some(e) => [WithWord, e]
  }

  ghost predicate AtomDerives(s: seq<Token>, t: Tree)
    decreases |s|, 0
  {
    || (t.Leaf? && s == LeafTokens(t.licence))
    || (|s| >= 2 && s[0] == Open && s[|s| - 1] == Close && OrDerives(s[1..|s| - 1], t))
  }

  ghost predicate AndDerives(s: seq<Token>, t: Tree)
    decreases |s|, 1
  {
    || AtomDerives(s, t)
    || (t.And? && exists i ::
          0 <= i < |s| && s[i] == AndWord && AndDerives(s[..i], t.left) && AtomDerives(s[i + 1..], t.right))
  }

  ghost predicate OrDerives(s: seq<Token>, t: Tree)
    decreases |s|, 2
  {
    || AndDerives(s, t)
    || (t.Or? && exists i ::
          0 <= i < |s| && s[i] == OrWord && OrDerives(s[..i], t.left) && AndDerives(s[i + 1..], t.right))
  }

  // The parser as functions of the tokens left

  type Parsed = Option<(Tree, seq<Token>)>

  predicate StartsWith(s: seq<Token>, t: Token) {
    s != [] && s[0] == t
  }

  function ParseAtom(s: seq<Token>): (r: Parsed)
    ensures r.Some? ==> |r.value.1| < |s|
    decreases |s|, 0
  {
    if s == [] then None
    else match s[0]
      case Open =>
        (match ParseOr(s[1..])
         case None => None
         case Some((t, rest)) => if StartsWith(rest, Close) then Some((t, rest[1..])) else None)
      case Name(n) =>
        if !StartsWith(s[1..], WithWord) then Some((Leaf(Licence(n, None)), s[1..]))
        else if |s| < 3 then None
        else Some((Leaf(Licence(n, Some(s[2]))), s[3..]))
      case _ => None
  }

  /** The rest of a conjunction whose first part is `node`. */
  function AndLoop(node: Tree, s: seq<Token>): (r: Parsed)
    ensures r.Some? ==> |r.value.1| <= |s|
    decreases |s|, 1
  {
    if !StartsWith(s, AndWord) then Some((node, s))
    else match ParseAtom(s[1..])
      case None => None
      case Some((t, rest)) => AndLoop(And(node, t), rest)
  }

  function ParseAnd(s: seq<Token>): (r: Parsed)
    ensures r.Some? ==> |r.value.1| < |s|
    decreases |s|, 2
  {
    match ParseAtom(s)
    case None => None
    case Some((t, rest)) => AndLoop(t, rest)
  }

  function OrLoop(node: Tree, s: seq<Token>): (r: Parsed)
    ensures r.Some? ==> |r.value.1| <= |s|
    decreases |s|, 3
  {
    if !StartsWith(s, OrWord) then Some((node, s))
    else match ParseAnd(s[1..])
      case None => None
      case Some((t, rest)) => OrLoop(Or(node, t), rest)
  }

  function ParseOr(s: seq<Token>): (r: Parsed)
    ensures r.Some? ==> |r.value.1| < |s|
    decreases |s|, 4
  {
    match ParseAnd(s)
    case None => None
    case Some((t, rest)) => OrLoop(t, rest)
  }

  /** The tree of a whole expression, if every token is used. */
  function Parse(s: seq<Token>): Option<Tree> {
    match ParseOr(s)
    case None => None
    case Some((t, rest)) => if rest == [] then Some(t) else None
  }

  // One step of each definition

  lemma AndLoopStep(node: Tree, s: seq<Token>, t: Tree, rest: seq<Token>)
    requires ParseAtom(s) == Some((t, rest))
    ensures AndLoop(node, [AndWord] + s) == AndLoop(And(node, t), rest)
  {
    assert ([AndWord] + s)[1..] == s;
  }

  lemma OrLoopStep(node: Tree, s: seq<Token>, t: Tree, rest: seq<Token>)
    requires ParseAnd(s) == Some((t, rest))
    ensures OrLoop(node, [OrWord] + s) == OrLoop(Or(node, t), rest)
  {
    assert ([OrWord] + s)[1..] == s;
  }

  lemma ParensDerive(inner: seq<Token>, t: Tree)
    requires OrDerives(inner, t)
    ensures AtomDerives([Open] + inner + [Close], t)
  {
    var s := [Open] + inner + [Close];
    assert s[1..|s| - 1] == inner;
  }

  lemma AndDerivesMore(a: seq<Token>, l: Tree, b: seq<Token>, r: Tree)
    requires AndDerives(a, l) && AtomDerives(b, r)
    ensures AndDerives(a + [AndWord] + b, And(l, r))
  {
    var s := a + [AndWord] + b;
    assert s[|a|] == AndWord && s[..|a|] == a && s[|a| + 1..] == b;
  }

  lemma OrDerivesMore(a: seq<Token>, l: Tree, b: seq<Token>, r: Tree)
    requires OrDerives(a, l) && AndDerives(b, r)
    ensures OrDerives(a + [OrWord] + b, Or(l, r))
  {
    var s := a + [OrWord] + b;
    assert s[|a|] == OrWord && s[..|a|] == a && s[|a| + 1..] == b;
  }

  lemma AndSplits(s: seq<Token>, t: Tree) returns (a: seq<Token>, b: seq<Token>)
    requires AndDerives(s, t) && !AtomDerives(s, t)
    ensures t.And? && s == a + [AndWord] + b && AndDerives(a, t.left) && AtomDerives(b, t.right)
  {
    hide AtomDerives;
    var i :| 0 <= i < |s| && s[i] == AndWord && AndDerives(s[..i], t.left) && AtomDerives(s[i + 1..], t.right);
    a, b := s[..i], s[i + 1..];
  }

  lemma OrSplits(s: seq<Token>, t: Tree) returns (a: seq<Token>, b: seq<Token>)
    requires OrDerives(s, t) && !AndDerives(s, t)
    ensures t.Or? && s == a + [OrWord] + b && OrDerives(a, t.left) && AndDerives(b, t.right)
  {
    var i :| 0 <= i < |s| && s[i] == OrWord && OrDerives(s[..i], t.left) && AndDerives(s[i + 1..], t.right);
    a, b := s[..i], s[i + 1..];
  }

  // What the grammar derives, the parser reads

  lemma LeafRead(l: Licence, rest: seq<Token>)
    requires !StartsWith(rest, WithWord)
    ensures ParseAtom(LeafTokens(l) + rest) == Some((Leaf(l), rest))
  {
    var s := LeafTokens(l) + rest;
    match l.exception
    case None => assert s[1..] == rest;
    case Some(e) =>
      assert s[1..] == [WithWord, e] + rest;
      assert s[3..] == rest;
  }

  lemma ParensRead(inner: seq<Token>, t: Tree, rest: seq<Token>)
    requires ParseOr(inner + ([Close] + rest)) == Some((t, [Close] + rest))
    ensures ParseAtom([Open] + inner + [Close] + rest) == Some((t, rest))
  {
    var s := [Open] + inner + [Close] + rest;
    assert s[1..] == inner + ([Close] + rest);
    assert ([Close] + rest)[1..] == rest;
  }

  lemma {:induction false} AtomComplete(s: seq<Token>, t: Tree, rest: seq<Token>)
    requires AtomDerives(s, t) && !StartsWith(rest, WithWord)
    ensures ParseAtom(s + rest) == Some((t, rest))
    decreases |s|, 0
  {
    hide ParseAtom, ParseOr;
    if t.Leaf? && s == LeafTokens(t.licence) {
      LeafRead(t.licence, rest);
    } else {
      var inner := s[1..|s| - 1];
      OrComplete(inner, t, [Close] + rest);
      ParensRead(inner, t, rest);
      assert s == [Open] + inner + [Close];
    }
  }

  lemma {:induction false} AndComplete(s: seq<Token>, t: Tree, rest: seq<Token>)
    requires AndDerives(s, t) && !StartsWith(rest, WithWord)
    ensures ParseAnd(s + rest) == AndLoop(t, rest)
    decreases |s|, 1
  {
    hide AtomDerives, AndDerives, ParseAtom, AndLoop;
    if AtomDerives(s, t) {
      AtomComplete(s, t, rest);
    } else {
      var a, b := AndSplits(s, t);
      AndComplete(a, t.left, [AndWord] + (b + rest));
      AtomComplete(b, t.right, rest);
      AndLoopStep(t.left, b + rest, t.right, rest);
      assert a + ([AndWord] + (b + rest)) == s + rest;
    }
  }

  lemma {:induction false} OrComplete(s: seq<Token>, t: Tree, rest: seq<Token>)
    requires OrDerives(s, t) && !StartsWith(rest, WithWord) && !StartsWith(rest, AndWord)
    ensures ParseOr(s + rest) == OrLoop(t, rest)
    decreases |s|, 2
  {
    hide OrDerives, AndDerives, ParseAnd, OrLoop;
    assert AndLoop(t, rest) == Some((t, rest));
    if AndDerives(s, t) {
      AndComplete(s, t, rest);
    } else {
      var a, b := OrSplits(s, t);
      OrComplete(a, t.left, [OrWord] + (b + rest));
      AndComplete(b, t.right, rest);
      assert AndLoop(t.right, rest) == Some((t.right, rest));
      OrLoopStep(t.left, b + rest, t.right, rest);
      assert a + ([OrWord] + (b + rest)) == s + rest;
    }
  }

  // What the parser reads, the grammar derives

  lemma AtomOpens(s: seq<Token>) returns (t: Tree, rest: seq<Token>)
    requires ParseAtom(s).Some? && s != [] && s[0] == Open
    ensures ParseOr(s[1..]) == Some((t, [Close] + rest)) && ParseAtom(s) == Some((t, rest))
  {
    t, rest := ParseAtom(s).value.0, ParseAtom(s).value.1;
    assert ParseOr(s[1..]).value.1 == [Close] + rest;
  }

  lemma AtomNames(s: seq<Token>) returns (l: Licence, rest: seq<Token>)
    requires ParseAtom(s).Some? && s != [] && s[0] != Open
    ensures s == LeafTokens(l) + rest && ParseAtom(s) == Some((Leaf(l), rest))
  {
    l, rest := ParseAtom(s).value.0.licence, ParseAtom(s).value.1;
  }

  lemma {:induction false} AtomSound(s: seq<Token>) returns (read: seq<Token>, t: Tree, rest: seq<Token>)
    requires ParseAtom(s).Some?
    ensures ParseAtom(s) == Some((t, rest)) && s == read + rest && AtomDerives(read, t)
    decreases |s|, 0
  {
    if s[0] == Open {
      t, rest := AtomOpens(s);
      var inner, _, _ := OrSound(s[1..]);
      hide ParseAtom, ParseOr, AtomDerives, OrDerives;
      ParensDerive(inner, t);
      read := [Open] + inner + [Close];
      assert s == [Open] + s[1..];
    } else {
      var l;
      l, rest := AtomNames(s);
      read, t := LeafTokens(l), Leaf(l);
    }
  }

  lemma Regroup(before: seq<Token>, w: Token, part: seq<Token>, after: seq<Token>, more: seq<Token>, rest: seq<Token>,
                s: seq<Token>)
    requires s == [w] + (part + after) && after == more + rest
    ensures s == [w] + part + more + rest && before + ([w] + part + more) == before + [w] + part + more
  {
  }

  lemma {:induction false} AndLoopSound(before: seq<Token>, node: Tree, s: seq<Token>)
    returns (read: seq<Token>, t: Tree, rest: seq<Token>)
    requires AndDerives(before, node) && AndLoop(node, s).Some?
    ensures AndLoop(node, s) == Some((t, rest)) && s == read + rest && AndDerives(before + read, t)
    decreases |s|, 1
  {
    if StartsWith(s, AndWord) {
      var part, u, after := AtomSound(s[1..]);
      assert s == [AndWord] + s[1..];
      AndLoopStep(node, s[1..], u, after);
      hide ParseAtom, AtomDerives, AndDerives, AndLoop;
      AndDerivesMore(before, node, part, u);
      var more;
      more, t, rest := AndLoopSound(before + [AndWord] + part, And(node, u), after);
      read := [AndWord] + part + more;
      Regroup(before, AndWord, part, after, more, rest, s);
    } else {
      read, t, rest := [], node, s;
      assert before + read == before;
    }
  }

  lemma {:induction false} AndSound(s: seq<Token>) returns (read: seq<Token>, t: Tree, rest: seq<Token>)
    requires ParseAnd(s).Some?
    ensures ParseAnd(s) == Some((t, rest)) && s == read + rest && AndDerives(read, t)
    decreases |s|, 2
  {
    hide ParseAtom, AtomDerives, AndLoop;
    var part, node, after := AtomSound(s);
    var more;
    more, t, rest := AndLoopSound(part, node, after);
    read := part + more;
  }

  lemma {:induction false} OrLoopSound(before: seq<Token>, node: Tree, s: seq<Token>)
    returns (read: seq<Token>, t: Tree, rest: seq<Token>)
    requires OrDerives(before, node) && OrLoop(node, s).Some?
    ensures OrLoop(node, s) == Some((t, rest)) && s == read + rest && OrDerives(before + read, t)
    decreases |s|, 3
  {
    if StartsWith(s, OrWord) {
      var part, u, after := AndSound(s[1..]);
      assert s == [OrWord] + s[1..];
      OrLoopStep(node, s[1..], u, after);
      hide ParseAnd, AndDerives, OrDerives, OrLoop;
      OrDerivesMore(before, node, part, u);
      var more;
      more, t, rest := OrLoopSound(before + [OrWord] + part, Or(node, u), after);
      read := [OrWord] + part + more;
      Regroup(before, OrWord, part, after, more, rest, s);
    } else {
      read, t, rest := [], node, s;
      assert before + read == before;
    }
  }

  lemma {:induction false} OrSound(s: seq<Token>) returns (read: seq<Token>, t: Tree, rest: seq<Token>)
    requires ParseOr(s).Some?
    ensures ParseOr(s) == Some((t, rest)) && s == read + rest && OrDerives(read, t)
    decreases |s|, 4
  {
    hide ParseAnd, AndDerives, OrLoop;
    var part, node, after := AndSound(s);
    var more;
    more, t, rest := OrLoopSound(part, node, after);
    read := part + more;
  }

  /** The parser accepts exactly the expressions of the grammar, with their tree. */
  lemma ParseExact(s: seq<Token>, t: Tree)
    ensures Parse(s) == Some(t) <==> OrDerives(s, t)
  {
    if OrDerives(s, t) {
      OrComplete(s, t, []);
      assert s + [] == s;
    }
    if Parse(s) == Some(t) {
      var read, _, rest := OrSound(s);
      assert read + [] == read;
    }
  }

  /** An expression has one tree. */
  lemma Unambiguous(s: seq<Token>, t: Tree, u: Tree)
    requires OrDerives(s, t) && OrDerives(s, u)
    ensures t == u
  {
    ParseExact(s, t);
    ParseExact(s, u);
  }

  // The standard's grammar, where an exception is a name

  predicate StandardLeaf(l: Licence) {
    l.exception.Some? ==> l.exception.value.Name?
  }

  ghost predicate StandardAtom(s: seq<Token>, t: Tree)
    decreases |s|, 0
  {
    || (t.Leaf? && StandardLeaf(t.licence) && s == LeafTokens(t.licence))
    || (|s| >= 2 && s[0] == Open && s[|s| - 1] == Close && StandardOr(s[1..|s| - 1], t))
  }

  ghost predicate StandardAnd(s: seq<Token>, t: Tree)
    decreases |s|, 1
  {
    || StandardAtom(s, t)
    || (t.And? && exists i ::
          0 <= i < |s| && s[i] == AndWord && StandardAnd(s[..i], t.left) && StandardAtom(s[i + 1..], t.right))
  }

  ghost predicate StandardOr(s: seq<Token>, t: Tree)
    decreases |s|, 2
  {
    || StandardAnd(s, t)
    || (t.Or? && exists i ::
          0 <= i < |s| && s[i] == OrWord && StandardOr(s[..i], t.left) && StandardAnd(s[i + 1..], t.right))
  }

  /** Every exception of the tree is a name. */
  predicate Standard(t: Tree) {
    match t
    case Leaf(l) => StandardLeaf(l)
    case Or(a, b) => Standard(a) && Standard(b)
    case And(a, b) => Standard(a) && Standard(b)
  }

  /** Every WITH is directly followed by a name. */
  predicate WithsNamed(s: seq<Token>) {
    forall i :: 0 <= i < |s| && s[i] == WithWord ==> i + 1 < |s| && s[i + 1].Name?
  }

  /** The standard derives exactly what the looser grammar derives with names for
      exceptions. */
  lemma {:induction false} StandardAtomIff(s: seq<Token>, t: Tree)
    ensures StandardAtom(s, t) <==> AtomDerives(s, t) && Standard(t)
    decreases |s|, 0
  {
    if |s| >= 2 { StandardOrIff(s[1..|s| - 1], t); }
  }

  lemma {:induction false} StandardAndIff(s: seq<Token>, t: Tree)
    ensures StandardAnd(s, t) <==> AndDerives(s, t) && Standard(t)
    decreases |s|, 1
  {
    StandardAtomIff(s, t);
    hide StandardAtom, AtomDerives;
    if t.And? {
      forall i | 0 <= i < |s| && s[i] == AndWord
        ensures StandardAnd(s[..i], t.left) <==> AndDerives(s[..i], t.left) && Standard(t.left)
        ensures StandardAtom(s[i + 1..], t.right) <==> AtomDerives(s[i + 1..], t.right) && Standard(t.right)
      {
        StandardAndIff(s[..i], t.left);
        StandardAtomIff(s[i + 1..], t.right);
      }
    }
  }

  lemma {:induction false} StandardOrIff(s: seq<Token>, t: Tree)
    ensures StandardOr(s, t) <==> OrDerives(s, t) && Standard(t)
    decreases |s|, 2
  {
    StandardAndIff(s, t);
    hide StandardAnd, AndDerives;
    if t.Or? {
      forall i | 0 <= i < |s| && s[i] == OrWord
        ensures StandardOr(s[..i], t.left) <==> OrDerives(s[..i], t.left) && Standard(t.left)
        ensures StandardAnd(s[i + 1..], t.right) <==> AndDerives(s[i + 1..], t.right) && Standard(t.right)
      {
        StandardOrIff(s[..i], t.left);
        StandardAndIff(s[i + 1..], t.right);
      }
    }
  }

  lemma WithsNamedJoin(a: seq<Token>, w: Token, b: seq<Token>)
    requires w == AndWord || w == OrWord
    ensures WithsNamed(a + [w] + b) <==> WithsNamed(a) && WithsNamed(b)
  {
    var s := a + [w] + b;
    if WithsNamed(s) {
      forall i | 0 <= i < |a| && a[i] == WithWord ensures i + 1 < |a| && a[i + 1].Name? {
        assert s[i] == WithWord && s[i + 1] == if i + 1 < |a| then a[i + 1] else w;
      }
      forall i | 0 <= i < |b| && b[i] == WithWord ensures i + 1 < |b| && b[i + 1].Name? {
        assert s[|a| + 1 + i] == WithWord && s[|a| + 1 + i + 1] == b[i + 1];
      }
    }
  }

  lemma WithsNamedParens(s: seq<Token>)
    ensures WithsNamed([Open] + s + [Close]) <==> WithsNamed(s)
  {
    var p := [Open] + s + [Close];
    if WithsNamed(p) {
      forall i | 0 <= i < |s| && s[i] == WithWord ensures i + 1 < |s| && s[i + 1].Name? {
        assert p[i + 1] == WithWord && p[i + 1 + 1] == if i + 1 < |s| then s[i + 1] else Close;
      }
    }
  }

  /** In an expression of the looser grammar, every exception is a name exactly
      when every WITH is directly followed by one. */
  lemma {:induction false} AtomNamed(s: seq<Token>, t: Tree)
    requires AtomDerives(s, t)
    ensures Standard(t) <==> WithsNamed(s)
    decreases |s|, 0
  {
    if t.Leaf? && s == LeafTokens(t.licence) {
      if t.licence.exception.Some? { assert s[1] == WithWord && s[2] == t.licence.exception.value; }
    } else {
      var inner := s[1..|s| - 1];
      OrNamed(inner, t);
      WithsNamedParens(inner);
      assert s == [Open] + inner + [Close];
    }
  }

  lemma {:induction false} AndNamed(s: seq<Token>, t: Tree)
    requires AndDerives(s, t)
    ensures Standard(t) <==> WithsNamed(s)
    decreases |s|, 1
  {
    hide WithsNamed, AtomDerives, AndDerives;
    if AtomDerives(s, t) {
      AtomNamed(s, t);
    } else {
      var a, b := AndSplits(s, t);
      AndNamed(a, t.left);
      AtomNamed(b, t.right);
      WithsNamedJoin(a, AndWord, b);
    }
  }

  lemma {:induction false} OrNamed(s: seq<Token>, t: Tree)
    requires OrDerives(s, t)
    ensures Standard(t) <==> WithsNamed(s)
    decreases |s|, 2
  {
    hide WithsNamed, AndDerives, OrDerives;
    if AndDerives(s, t) {
      AndNamed(s, t);
    } else {
      var a, b := OrSplits(s, t);
      OrNamed(a, t.left);
      AndNamed(b, t.right);
      WithsNamedJoin(a, OrWord, b);
    }
  }

  /** The standard derives a tree from an expression exactly when the parser
      accepts it with that tree and every WITH is directly followed by a name. */
  lemma StandardIff(s: seq<Token>, t: Tree)
    ensures StandardOr(s, t) <==> Parse(s) == Some(t) && WithsNamed(s)
  {
    ParseExact(s, t);
    StandardOrIff(s, t);
    if OrDerives(s, t) { OrNamed(s, t); }
  }

  /** So the parser agrees with the standard on an expression, accepting it with
      the standard's tree or rejecting it with it, exactly unless it accepts it
      with a WITH that no name follows. */
  lemma AgreesWithStandardIff(s: seq<Token>)
    ensures (forall t :: Parse(s) == Some(t) <==> StandardOr(s, t)) <==> (Parse(s).Some? ==> WithsNamed(s))
  {
    forall t ensures StandardOr(s, t) <==> Parse(s) == Some(t) && WithsNamed(s) {
      StandardIff(s, t);
    }
  }

  /** And it does accept such expressions: any token is taken for an exception,
      reserved words and parentheses included. */
  lemma AnyTokenIsAnException(n: Text, t: Token)
    ensures Parse([Name(n), WithWord, t]) == Some(Leaf(Licence(n, Some(t))))
    ensures !t.Name? ==> forall u :: !StandardOr([Name(n), WithWord, t], u)
  {
    var l := Licence(n, Some(t));
    var s := LeafTokens(l);
    assert s == [Name(n), WithWord, t];
    assert AtomDerives(s, Leaf(l)) && OrDerives(s, Leaf(l));
    ParseExact(s, Leaf(l));
    forall u ensures StandardOr(s, u) <==> Parse(s) == Some(u) && WithsNamed(s) {
      StandardIff(s, u);
    }
    assert s[1] == WithWord && s[2] == t;
  }

  /** A tree written out with parentheses around every part. */
  function Render(t: Tree): seq<Token> {
    match t
    case Leaf(l) => LeafTokens(l)
    case Or(a, b) => [Open] + (Render(a) + [OrWord] + Render(b)) + [Close]
    case And(a, b) => [Open] + (Render(a) + [AndWord] + Render(b)) + [Close]
  }

  lemma {:induction false} RenderDerives(t: Tree)
    ensures AtomDerives(Render(t), t)
  {
    match t
    case Leaf(_) =>
    case Or(a, b) =>
      RenderDerives(a);
      RenderDerives(b);
      OrDerivesMore(Render(a), a, Render(b), b);
      ParensDerive(Render(a) + [OrWord] + Render(b), t);
    case And(a, b) =>
      RenderDerives(a);
      RenderDerives(b);
      AndDerivesMore(Render(a), a, Render(b), b);
      ParensDerive(Render(a) + [AndWord] + Render(b), t);
  }

  /** Parsing gives back any tree rendered with parentheses. */
  lemma RoundTrip(t: Tree)
    ensures Parse(Render(t)) == Some(t)
  {
    RenderDerives(t);
    ParseExact(Render(t), t);
  }

  // The parser as written: a position in the tokens

  /** What a parse function leaves is what the parser leaves. */
  ghost predicate Agrees(parsed: Parsed, t: Option<Tree>, left: seq<Token>) {
    match parsed
    case None => t.None?
    case Some((tree, rest)) => t == Some(tree) && left == rest
  }

  class Parser {
    const tokens: seq<Token>
    var position: nat

    ghost predicate Valid()
      reads this
    {
      position <= |tokens|
    }

    function Left(): seq<Token>
      requires Valid()
      reads this
    {
      tokens[position..]
    }

    constructor (tokens: seq<Token>)
      ensures Valid() && this.tokens == tokens && Left() == tokens
    {
      this.tokens, position := tokens, 0;
    }

    function Peek(): Option<Token>
      requires Valid()
      reads this
    {
      if position < |tokens| then Some(tokens[position]) else None
    }

    method Take() returns (t: Option<Token>)
      requires Valid()
      modifies this
      ensures Valid() && t == old(Peek())
      ensures t.Some? ==> position == old(position) + 1 && Left() == old(Left())[1..]
      ensures t.None? ==> position == old(position)
    {
      if position >= |tokens| { return None; }
      position := position + 1;
      t := Some(tokens[position - 1]);
    }

    method OrNode() returns (t: Option<Tree>)
      requires Valid()
      modifies this
      ensures Valid() && position >= old(position) && Agrees(ParseOr(old(Left())), t, Left())
      ensures t.Some? ==> position > old(position)
      decreases |tokens| - position, 2
    {
      t := AndNode();
      if t.None? { return; }
      while Peek() == Some(OrWord)
        invariant Valid() && position > old(position) && t.Some?
        invariant OrLoop(t.value, Left()) == ParseOr(old(Left()))
        decreases |tokens| - position
      {
        var _ := Take();
        var right := AndNode();
        if right.None? { return None; }
        t := Some(Or(t.value, right.value));
      }
    }

    method AndNode() returns (t: Option<Tree>)
      requires Valid()
      modifies this
      ensures Valid() && position >= old(position) && Agrees(ParseAnd(old(Left())), t, Left())
      ensures t.Some? ==> position > old(position)
      decreases |tokens| - position, 1
    {
      t := AtomNode();
      if t.None? { return; }
      while Peek() == Some(AndWord)
        invariant Valid() && position > old(position) && t.Some?
        invariant AndLoop(t.value, Left()) == ParseAnd(old(Left()))
        decreases |tokens| - position
      {
        var _ := Take();
        var right := AtomNode();
        if right.None? { return None; }
        t := Some(And(t.value, right.value));
      }
    }

    method AtomNode() returns (t: Option<Tree>)
      requires Valid()
      modifies this
      ensures Valid() && position >= old(position) && Agrees(ParseAtom(old(Left())), t, Left())
      ensures t.Some? ==> position > old(position)
      decreases |tokens| - position, 0
    {
      var token := Take();
      if token.None? { return None; }
      if token.value == Open {
        t := OrNode();
        if t.None? { return; }
        var close := Take();
        if close != Some(Close) { return None; }
        return;
      }
      if !token.value.Name? { return None; }
      if Peek() == Some(WithWord) {
        var _ := Take();
        var exception := Take();
        if exception.None? { return None; }
        return Some(Leaf(Licence(token.value.text, exception)));
      }
      t := Some(Leaf(Licence(token.value.text, None)));
    }
  }

  method ParseSpdx(tokens: seq<Token>) returns (t: Option<Tree>)
    ensures t == Parse(tokens)
  {
    hide ParseOr;
    var parser := new Parser(tokens);
    t := parser.OrNode();
    if t.Some? && parser.Peek().Some? { t := None; }
  }
}
