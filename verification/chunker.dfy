/**
  The chunker: split at visual bounds, merge text atoms greedily, coarsen short
  groups, prepend a sentence overlap, assemble.
*/
module Chunker {
  import opened Wrappers

  datatype AtomType = TEXT | IMAGE | TABLE | FORMULA

  /** text and context are empty where the program has None. */
  datatype Atom = Atom(id: string, doc: string, kind: AtomType, text: string, page: Option<int>, context: string)

  datatype ChunkingOptions = ChunkingOptions(
    targetTokens: nat, overlapRatio: real, maxTokens: nat, semanticThreshold: real, minTokens: nat, mergeShort: bool)
  {
    predicate Valid() { 0.0 <= overlapRatio <= 0.5 && 0.0 <= semanticThreshold <= 1.0 }
  }

  /**
    Token counting, sentence splitting, embedding, similarity and the text of a
    chunk, none of which the chunker looks into.
  */
  datatype Tools = Tools(
    count: string -> nat,
    sentences: string -> seq<string>,
    embed: Option<seq<string> -> seq<seq<real>>>,
    cosine: (seq<real>, seq<real>) -> real,
    render: seq<Atom> -> string)
  {
    /** The embedder returns one vector per text. */
    ghost predicate Valid() {
      embed.Some? ==> forall ts :: |embed.value(ts)| == |ts|
    }
  }

  datatype Chunk = Chunk(atomIds: seq<string>, text: string, tokens: nat, page: Option<int>)

  /** The error of a chunk over the hard cap (code 3003). */
  datatype TooLarge = TooLarge(tokens: nat)

  function Flatten<T>(groups: seq<seq<T>>): seq<T> {
    if groups == [] then [] else groups[0] + Flatten(groups[1..])
  }

  lemma {:induction false} FlattenSplit<T>(a: seq<seq<T>>, b: seq<seq<T>>)
    ensures Flatten(a + b) == Flatten(a) + Flatten(b)
  {
    if a == [] {
      assert a + b == b;
    } else {
      assert (a + b)[1..] == a[1..] + b;
      FlattenSplit(a[1..], b);
    }
  }

  lemma FlattenOne<T>(g: seq<T>)
    ensures Flatten([g]) == g
  {
  }

  function Tokens(t: Tools, atoms: seq<Atom>): nat {
    if atoms == [] then 0 else Tokens(t, atoms[..|atoms| - 1]) + t.count(atoms[|atoms| - 1].text)
  }

  lemma {:induction false} TokensSplit(t: Tools, a: seq<Atom>, b: seq<Atom>)
    ensures Tokens(t, a + b) == Tokens(t, a) + Tokens(t, b)
  {
    if b == [] {
      assert a + b == a;
    } else {
      assert (a + b)[..|a + b| - 1] == a + b[..|b| - 1];
      TokensSplit(t, a, b[..|b| - 1]);
    }
  }

  // ------------------------------------------------------------- visual bounds

  predicate IsHardBoundary(prev: Atom, curr: Atom) {
    || (prev.page.Some? && curr.page.Some? && prev.page != curr.page)
    || (curr.context != "" && curr.context != prev.context)
    || curr.kind != TEXT
  }

  function SplitFrom(atoms: seq<Atom>, current: seq<Atom>, i: nat): seq<seq<Atom>>
    requires i <= |atoms|
    decreases |atoms| - i
  {
    if i == |atoms| then if current == [] then [] else [current]
    else if current != [] && IsHardBoundary(current[|current| - 1], atoms[i]) then
      [current] + SplitFrom(atoms, [atoms[i]], i + 1)
    else SplitFrom(atoms, current + [atoms[i]], i + 1)
  }

  function SplitByVisualBounds(atoms: seq<Atom>): seq<seq<Atom>> { SplitFrom(atoms, [], 0) }

  ghost predicate NoBoundaryInside(group: seq<Atom>) {
    group != [] && forall i :: 0 < i < |group| ==> !IsHardBoundary(group[i - 1], group[i])
  }

  /** The groups are the atoms in order, broken at every hard boundary and nowhere else. */
  ghost predicate BrokenAtBounds(groups: seq<seq<Atom>>) {
    && (forall g :: 0 <= g < |groups| ==> NoBoundaryInside(groups[g]))
    && (forall g :: 0 < g < |groups| ==>
          IsHardBoundary(groups[g - 1][|groups[g - 1]| - 1], groups[g][0]))
  }

  lemma PrependGroup(current: seq<Atom>, rest: seq<seq<Atom>>)
    requires NoBoundaryInside(current) && BrokenAtBounds(rest)
    requires rest != [] && IsHardBoundary(current[|current| - 1], rest[0][0])
    ensures BrokenAtBounds([current] + rest) && Flatten([current] + rest) == current + Flatten(rest)
  {
  }

  lemma {:induction false} SplitFromSpec(atoms: seq<Atom>, current: seq<Atom>, i: nat)
    requires i <= |atoms| && (current == [] || NoBoundaryInside(current))
    ensures var groups := SplitFrom(atoms, current, i);
      && Flatten(groups) == current + atoms[i..]
      && BrokenAtBounds(groups)
      && (current != [] ==> groups != [] && groups[0][0] == current[0])
    decreases |atoms| - i
  {
    if i == |atoms| {
      if current != [] { FlattenOne(current); }
    } else if current != [] && IsHardBoundary(current[|current| - 1], atoms[i]) {
      SplitFromSpec(atoms, [atoms[i]], i + 1);
      PrependGroup(current, SplitFrom(atoms, [atoms[i]], i + 1));
      assert atoms[i..] == [atoms[i]] + atoms[i + 1..];
    } else {
      SplitFromSpec(atoms, current + [atoms[i]], i + 1);
      assert current + atoms[i..] == (current + [atoms[i]]) + atoms[i + 1..];
    }
  }

  /** Visual groups keep every atom in reading order and break exactly at the hard boundaries. */
  lemma VisualSplitSpec(atoms: seq<Atom>)
    ensures Flatten(SplitByVisualBounds(atoms)) == atoms && BrokenAtBounds(SplitByVisualBounds(atoms))
  {
    SplitFromSpec(atoms, [], 0);
    assert [] + atoms[0..] == atoms;
  }

  // ---------------------------------------------------------------- greedy merge

  function ShouldSplit(t: Tools, o: ChunkingOptions, current: seq<Atom>, atom: Atom, sim: real): bool {
    || Tokens(t, current) + t.count(atom.text) > o.maxTokens
    || (Tokens(t, current) >= o.targetTokens && sim < o.semanticThreshold)
    || sim < o.semanticThreshold * 0.7
  }

  function SimAt(t: Tools, vectors: seq<seq<real>>, i: nat): real
    requires 0 < i < |vectors|
  {
    t.cosine(vectors[i - 1], vectors[i])
  }

  function MergeFrom(t: Tools, o: ChunkingOptions, atoms: seq<Atom>, vectors: seq<seq<real>>,
                     current: seq<Atom>, i: nat): seq<seq<Atom>>
    requires 0 < i <= |atoms| == |vectors|
    decreases |atoms| - i
  {
    if i == |atoms| then [current]
    else if ShouldSplit(t, o, current, atoms[i], SimAt(t, vectors, i)) then
      [current] + MergeFrom(t, o, atoms, vectors, [atoms[i]], i + 1)
    else MergeFrom(t, o, atoms, vectors, current + [atoms[i]], i + 1)
  }

  /** The groups before short ones are coarsened. */
  function GreedyGroups(t: Tools, o: ChunkingOptions, atoms: seq<Atom>, vectors: seq<seq<real>>): seq<seq<Atom>>
    requires |atoms| == |vectors|
  {
    if atoms == [] then [] else MergeFrom(t, o, atoms, vectors, [atoms[0]], 1)
  }

  function MergeTextAtoms(t: Tools, o: ChunkingOptions, atoms: seq<Atom>, vectors: seq<seq<real>>): seq<seq<Atom>>
    requires |atoms| == |vectors|
  {
    var groups := GreedyGroups(t, o, atoms, vectors);
    if o.mergeShort then MergeShort(t, groups, o.minTokens) else groups
  }

  /** A group of one atom, or one within the token limit. */
  ghost predicate SingleOrFits(t: Tools, o: ChunkingOptions, group: seq<Atom>) {
    |group| == 1 || (group != [] && Tokens(t, group) <= o.maxTokens)
  }

  /** Every atom could follow its predecessor as far as similarity goes. */
  ghost predicate AllSimilar(t: Tools, o: ChunkingOptions, vectors: seq<seq<real>>) {
    forall i :: 0 < i < |vectors| ==> SimAt(t, vectors, i) >= o.semanticThreshold
  }

  /** No group could have taken the first atom of the next one. */
  ghost predicate Maximal(t: Tools, o: ChunkingOptions, groups: seq<seq<Atom>>) {
    && (forall g :: 0 <= g < |groups| ==> groups[g] != [])
    && (forall g :: 0 < g < |groups| ==> Tokens(t, groups[g - 1]) + t.count(groups[g][0].text) > o.maxTokens)
  }

  lemma {:induction false} MergeFromSpec(t: Tools, o: ChunkingOptions, atoms: seq<Atom>, vectors: seq<seq<real>>,
                                         current: seq<Atom>, i: nat)
    requires 0 < i <= |atoms| == |vectors| && SingleOrFits(t, o, current)
    ensures var groups := MergeFrom(t, o, atoms, vectors, current, i);
      && groups != [] && groups[0] != [] && groups[0][0] == current[0]
      && Flatten(groups) == current + atoms[i..]
      && (forall g :: 0 <= g < |groups| ==> SingleOrFits(t, o, groups[g]))
      && (o.Valid() && AllSimilar(t, o, vectors) ==> Maximal(t, o, groups))
    decreases |atoms| - i
  {
    if i == |atoms| {
      FlattenOne(current);
    } else {
      var a := atoms[i];
      assert Tokens(t, current + [a]) == Tokens(t, current) + t.count(a.text) by {
        assert (current + [a])[..|current|] == current;
      }
      if ShouldSplit(t, o, current, a, SimAt(t, vectors, i)) {
        MergeFromSpec(t, o, atoms, vectors, [a], i + 1);
        var rest := MergeFrom(t, o, atoms, vectors, [a], i + 1);
        var groups := [current] + rest;
        assert groups[1..] == rest;
        assert forall g :: 1 <= g < |groups| ==> groups[g] == rest[g - 1];
        assert atoms[i..] == [a] + atoms[i + 1..];
        if o.Valid() && AllSimilar(t, o, vectors) {
          assert SimAt(t, vectors, i) >= o.semanticThreshold >= o.semanticThreshold * 0.7;
          assert Maximal(t, o, groups);
        }
      } else {
        MergeFromSpec(t, o, atoms, vectors, current + [a], i + 1);
        assert current + atoms[i..] == (current + [a]) + atoms[i + 1..];
      }
    }
  }

  /** Whatever the similarities, the groups are the atoms in order and each is one atom or fits the limit. */
  lemma GreedyGroupsFit(t: Tools, o: ChunkingOptions, atoms: seq<Atom>, vectors: seq<seq<real>>)
    requires |atoms| == |vectors|
    ensures var groups := GreedyGroups(t, o, atoms, vectors);
      && Flatten(groups) == atoms
      && (forall g :: 0 <= g < |groups| ==> SingleOrFits(t, o, groups[g]))
      && (o.Valid() && AllSimilar(t, o, vectors) ==> Maximal(t, o, groups))
  {
    if atoms != [] {
      MergeFromSpec(t, o, atoms, vectors, [atoms[0]], 1);
      assert atoms == [atoms[0]] + atoms[1..];
    }
  }

  /** No atom of the group, which starts at position at, called for a split from those before it. */
  ghost predicate NoSplitInside(t: Tools, o: ChunkingOptions, vectors: seq<seq<real>>, group: seq<Atom>, at: nat) {
    && group != [] && at + |group| <= |vectors|
    && forall j :: 0 < j < |group| ==> !ShouldSplit(t, o, group[..j], group[j], SimAt(t, vectors, at + j))
  }

  /** The groups, the first of which starts at position at, break exactly where a split was called for. */
  ghost predicate BrokenWhereCalledFor(t: Tools, o: ChunkingOptions, vectors: seq<seq<real>>,
                                       groups: seq<seq<Atom>>, at: nat) {
    groups != [] ==>
      && NoSplitInside(t, o, vectors, groups[0], at)
      && BrokenWhereCalledFor(t, o, vectors, groups[1..], at + |groups[0]|)
      && (|groups| > 1 ==>
            && groups[1] != [] && 0 < at + |groups[0]| < |vectors|
            && ShouldSplit(t, o, groups[0], groups[1][0], SimAt(t, vectors, at + |groups[0]|)))
  }

  lemma NoSplitExtends(t: Tools, o: ChunkingOptions, vectors: seq<seq<real>>, group: seq<Atom>, a: Atom, at: nat)
    requires NoSplitInside(t, o, vectors, group, at) && at + |group| < |vectors|
    requires !ShouldSplit(t, o, group, a, SimAt(t, vectors, at + |group|))
    ensures NoSplitInside(t, o, vectors, group + [a], at)
  {
    var longer := group + [a];
    forall j | 0 < j < |longer| ensures !ShouldSplit(t, o, longer[..j], longer[j], SimAt(t, vectors, at + j)) {
      if j < |group| {
        assert longer[..j] == group[..j] && longer[j] == group[j];
      } else {
        assert longer[..j] == group;
      }
    }
  }

  lemma BreaksPrepend(t: Tools, o: ChunkingOptions, vectors: seq<seq<real>>, group: seq<Atom>, rest: seq<seq<Atom>>,
                      at: nat)
    requires NoSplitInside(t, o, vectors, group, at) && at + |group| < |vectors| && rest != [] && rest[0] != []
    requires ShouldSplit(t, o, group, rest[0][0], SimAt(t, vectors, at + |group|))
    requires BrokenWhereCalledFor(t, o, vectors, rest, at + |group|)
    ensures BrokenWhereCalledFor(t, o, vectors, [group] + rest, at)
  {
  }

  lemma {:induction false} MergeFromHead(t: Tools, o: ChunkingOptions, atoms: seq<Atom>, vectors: seq<seq<real>>,
                                         current: seq<Atom>, i: nat)
    requires 0 < i <= |atoms| == |vectors| && current != []
    ensures var groups := MergeFrom(t, o, atoms, vectors, current, i);
      groups != [] && groups[0] != [] && groups[0][0] == current[0]
    decreases |atoms| - i
  {
    if i < |atoms| && !ShouldSplit(t, o, current, atoms[i], SimAt(t, vectors, i)) {
      MergeFromHead(t, o, atoms, vectors, current + [atoms[i]], i + 1);
    }
  }

  lemma {:induction false} MergeFromBreaks(t: Tools, o: ChunkingOptions, atoms: seq<Atom>, vectors: seq<seq<real>>,
                                           current: seq<Atom>, i: nat, at: nat)
    requires 0 < i <= |atoms| == |vectors| && at + |current| == i
    requires NoSplitInside(t, o, vectors, current, at)
    ensures BrokenWhereCalledFor(t, o, vectors, MergeFrom(t, o, atoms, vectors, current, i), at)
    decreases |atoms| - i
  {
    if i == |atoms| {
      assert [current][1..] == [];
    } else {
      var a := atoms[i];
      if ShouldSplit(t, o, current, a, SimAt(t, vectors, i)) {
        assert NoSplitInside(t, o, vectors, [a], i);
        MergeFromBreaks(t, o, atoms, vectors, [a], i + 1, i);
        MergeFromHead(t, o, atoms, vectors, [a], i + 1);
        BreaksPrepend(t, o, vectors, current, MergeFrom(t, o, atoms, vectors, [a], i + 1), at);
      } else {
        NoSplitExtends(t, o, vectors, current, a, at);
        MergeFromBreaks(t, o, atoms, vectors, current + [a], i + 1, at);
      }
    }
  }

  /**
    The greedy merge breaks where the limit, the target with a topic change, or a sharp
    topic change asks for it, and nowhere else.
  */
  lemma GreedyBreaks(t: Tools, o: ChunkingOptions, atoms: seq<Atom>, vectors: seq<seq<real>>)
    requires |atoms| == |vectors|
    ensures BrokenWhereCalledFor(t, o, vectors, GreedyGroups(t, o, atoms, vectors), 0)
  {
    if atoms != [] { MergeFromBreaks(t, o, atoms, vectors, [atoms[0]], 1, 0); }
  }

  /** Every group of a contiguous partition fits the limit. */
  ghost predicate FitsAll(t: Tools, o: ChunkingOptions, partition: seq<seq<Atom>>) {
    forall p :: 0 <= p < |partition| ==> Tokens(t, partition[p]) <= o.maxTokens
  }

  /** Maximal groups that are ahead of a fitting partition need no more groups than it. */
  lemma {:induction false} AheadNeedsNoMore(t: Tools, o: ChunkingOptions, groups: seq<seq<Atom>>,
                                            partition: seq<seq<Atom>>, extra: seq<Atom>)
    requires Maximal(t, o, groups) && FitsAll(t, o, partition)
    requires Flatten(partition) == extra + Flatten(groups)
    ensures |groups| <= |partition|
    decreases partition
  {
    if groups != [] {
      var g, rest := groups[0], Flatten(groups[1..]);
      assert partition != [];
      var p, left := partition[0], Flatten(partition[1..]);
      assert p + left == extra + (g + rest);
      if |p| > |extra| + |g| {
        TooMuch(t, o, groups, p, extra);
      } else {
        var extra' := (extra + g)[|p|..];
        assert p == (extra + g)[..|p|] by { assert p == (p + left)[..|p|] == ((extra + g) + rest)[..|p|]; }
        assert left == (p + left)[|p|..] == ((extra + g) + rest)[|p|..] == extra' + rest;
        assert forall k :: 1 <= k < |groups| ==> groups[1..][k - 1] == groups[k];
        AheadNeedsNoMore(t, o, groups[1..], partition[1..], extra');
      }
    }
  }

  /** A part that reaches past a maximal group cannot fit. */
  lemma TooMuch(t: Tools, o: ChunkingOptions, groups: seq<seq<Atom>>, p: seq<Atom>, extra: seq<Atom>)
    requires groups != [] && Maximal(t, o, groups)
    requires |p| > |extra| + |groups[0]|
    requires p <= extra + Flatten(groups)
    ensures Tokens(t, p) > o.maxTokens
  {
    var g, rest := groups[0], Flatten(groups[1..]);
    var head := extra + g;
    assert extra + Flatten(groups) == head + rest;
    assert |groups| > 1 && groups[1..][0] == groups[1];
    assert rest[0] == groups[1][0];
    var more := p[|head|..];
    PrefixPast(head, rest, p);
    TokensSplit(t, head + [rest[0]], more[1..]);
    TokensSplit(t, head, [rest[0]]);
    TokensSplit(t, extra, g);
    assert [rest[0]][..0] == [];
  }

  /** A prefix that reaches past the first part contains it and the next element. */
  lemma PrefixPast<T>(head: seq<T>, rest: seq<T>, p: seq<T>)
    requires |p| > |head| && p <= head + rest
    ensures rest != [] && p[|head|..] != []
    ensures p == (head + [rest[0]]) + p[|head|..][1..]
  {
  }

  /**
    With similarity out of the way and no coarsening, the greedy merge yields the
    fewest groups of any contiguous partition whose groups fit the limit. (When
    some single atom does not fit, no such partition exists.)
  */
  lemma GreedyIsFewest(t: Tools, o: ChunkingOptions, atoms: seq<Atom>, vectors: seq<seq<real>>,
                       partition: seq<seq<Atom>>)
    requires |atoms| == |vectors| && o.Valid() && !o.mergeShort && AllSimilar(t, o, vectors)
    requires Flatten(partition) == atoms && FitsAll(t, o, partition)
    ensures |MergeTextAtoms(t, o, atoms, vectors)| <= |partition|
    ensures (forall i :: 0 <= i < |atoms| ==> t.count(atoms[i].text) <= o.maxTokens)
      ==> FitsAll(t, o, MergeTextAtoms(t, o, atoms, vectors))
  {
    GreedyGroupsFit(t, o, atoms, vectors);
    var groups := GreedyGroups(t, o, atoms, vectors);
    assert [] + atoms == atoms;
    AheadNeedsNoMore(t, o, groups, partition, []);
    if forall i :: 0 <= i < |atoms| ==> t.count(atoms[i].text) <= o.maxTokens {
      forall g | 0 <= g < |groups| ensures Tokens(t, groups[g]) <= o.maxTokens {
        if |groups[g]| == 1 {
          InFlatten(groups, g, groups[g][0]);
          assert groups[g][..0] == [];
        }
      }
    }
  }

  lemma {:induction false} InFlatten<T>(groups: seq<seq<T>>, g: nat, x: T)
    requires g < |groups| && x in groups[g]
    ensures x in Flatten(groups)
  {
    if g > 0 { InFlatten(groups[1..], g - 1, x); }
  }

  /** Without an embedder all vectors are alike, so similarity never splits. */
  lemma NoEmbedderIsSimilar(t: Tools, o: ChunkingOptions, n: nat)
    requires o.Valid() && t.cosine([1.0, 0.0], [1.0, 0.0]) == 1.0
    ensures AllSimilar(t, o, seq(n, _ => [1.0, 0.0]))
  {
  }

  // ------------------------------------------------------------ coarsening

  /** Extending the last group by a short one. */
  function Absorb(out: seq<seq<Atom>>, group: seq<Atom>): seq<seq<Atom>>
    requires out != []
  {
    out[..|out| - 1] + [out[|out| - 1] + group]
  }

  function MergeShortFrom(t: Tools, out: seq<seq<Atom>>, rest: seq<seq<Atom>>, minTokens: nat): seq<seq<Atom>>
    requires out != []
    decreases rest
  {
    if rest == [] then out
    else if Tokens(t, rest[0]) < minTokens then
      MergeShortFrom(t, Absorb(out, rest[0]), rest[1..], minTokens)
    else MergeShortFrom(t, out + [rest[0]], rest[1..], minTokens)
  }

  function MergeShort(t: Tools, groups: seq<seq<Atom>>, minTokens: nat): seq<seq<Atom>> {
    if groups == [] then groups else MergeShortFrom(t, [groups[0]], groups[1..], minTokens)
  }

  function LongOnes(t: Tools, groups: seq<seq<Atom>>, minTokens: nat): nat {
    if groups == [] then 0
    else (if Tokens(t, groups[0]) < minTokens then 0 else 1) + LongOnes(t, groups[1..], minTokens)
  }

  /** Every group but possibly the first reaches the minimum. */
  ghost predicate LongAfterFirst(t: Tools, groups: seq<seq<Atom>>, minTokens: nat) {
    forall g :: 0 < g < |groups| ==> Tokens(t, groups[g]) >= minTokens
  }

  lemma AbsorbSpec(t: Tools, out: seq<seq<Atom>>, group: seq<Atom>, minTokens: nat)
    requires out != [] && LongAfterFirst(t, out, minTokens)
    ensures Flatten(Absorb(out, group)) == Flatten(out) + group && LongAfterFirst(t, Absorb(out, group), minTokens)
  {
    var n := |out| - 1;
    TokensSplit(t, out[n], group);
    assert out == out[..n] + [out[n]];
    FlattenSplit(out[..n], [out[n]]);
    FlattenSplit(out[..n], [out[n] + group]);
    FlattenOne(out[n]);
    FlattenOne(out[n] + group);
  }

  lemma {:induction false} MergeShortFromSpec(t: Tools, out: seq<seq<Atom>>, rest: seq<seq<Atom>>, minTokens: nat)
    requires out != [] && LongAfterFirst(t, out, minTokens)
    ensures var merged := MergeShortFrom(t, out, rest, minTokens);
      && Flatten(merged) == Flatten(out) + Flatten(rest)
      && |merged| == |out| + LongOnes(t, rest, minTokens)
      && LongAfterFirst(t, merged, minTokens)
    decreases rest
  {
    if rest != [] {
      if Tokens(t, rest[0]) < minTokens {
        AbsorbSpec(t, out, rest[0], minTokens);
        MergeShortFromSpec(t, Absorb(out, rest[0]), rest[1..], minTokens);
      } else {
        FlattenSplit(out, [rest[0]]);
        FlattenOne(rest[0]);
        MergeShortFromSpec(t, out + [rest[0]], rest[1..], minTokens);
      }
    }
  }

  /**
    Coarsening keeps the atoms in order, leaves no short group but possibly the
    first, and drops exactly one boundary per short group after the first.
  */
  lemma MergeShortSpec(t: Tools, groups: seq<seq<Atom>>, minTokens: nat)
    ensures var merged := MergeShort(t, groups, minTokens);
      && Flatten(merged) == Flatten(groups)
      && LongAfterFirst(t, merged, minTokens)
      && (groups != [] ==> |merged| == 1 + LongOnes(t, groups[1..], minTokens))
  {
    if groups != [] {
      MergeShortFromSpec(t, [groups[0]], groups[1..], minTokens);
      FlattenOne(groups[0]);
    }
  }

  /** Coarsening does not look at the token limit: a short group joins its predecessor even if that overflows it. */
  lemma CoarseningOverflows(t: Tools, o: ChunkingOptions, a: seq<Atom>, b: seq<Atom>)
    requires Tokens(t, a) <= o.maxTokens < Tokens(t, a) + Tokens(t, b) && Tokens(t, b) < o.minTokens
    ensures MergeShort(t, [a, b], o.minTokens) == [a + b] && Tokens(t, a + b) > o.maxTokens
  {
    TokensSplit(t, a, b);
    assert [a, b][1..] == [b] && [b][1..] == [];
    assert MergeShort(t, [a, b], o.minTokens) == MergeShortFrom(t, [a], [b], o.minTokens);
    assert Absorb([a], b) == [a + b];
    assert MergeShortFrom(t, [a], [b], o.minTokens) == MergeShortFrom(t, [a + b], [], o.minTokens);
  }

  // ---------------------------------------------------------------- overlap

  datatype Sentence = Sentence(atom: Atom, text: string)

  function AtomSentences(t: Tools, a: Atom): seq<Sentence> {
    seq(|t.sentences(a.text)|, i requires 0 <= i < |t.sentences(a.text)| => Sentence(a, t.sentences(a.text)[i]))
  }

  /** All sentences of a group, in reading order. */
  function GroupSentences(t: Tools, atoms: seq<Atom>): seq<Sentence> {
    if atoms == [] then [] else GroupSentences(t, atoms[..|atoms| - 1]) + AtomSentences(t, atoms[|atoms| - 1])
  }

  function SentenceTokens(t: Tools, ss: seq<Sentence>): nat {
    if ss == [] then 0 else t.count(ss[0].text) + SentenceTokens(t, ss[1..])
  }

  /** The copy of a sentence that goes in front of the next group. */
  function OverlapAtom(s: Sentence): Atom {
    Atom(s.atom.id + "#ov", s.atom.doc, TEXT, s.text, s.atom.page, s.atom.context)
  }

  function OverlapAtoms(ss: seq<Sentence>): seq<Atom> {
    seq(|ss|, i requires 0 <= i < |ss| => OverlapAtom(ss[i]))
  }

  /** The longest suffix of a group's sentences within the token target. */
  ghost predicate IsTail(t: Tools, atoms: seq<Atom>, target: nat, tail: seq<Atom>) {
    exists m :: IsTailFrom(t, GroupSentences(t, atoms), target, tail, m)
  }

  ghost predicate IsTailFrom(t: Tools, ss: seq<Sentence>, target: nat, tail: seq<Atom>, m: nat) {
    && m <= |ss|
    && tail == OverlapAtoms(ss[m..])
    && SentenceTokens(t, ss[m..]) <= target
    && forall k :: 0 <= k < m ==> SentenceTokens(t, ss[k..]) > target
  }

  lemma {:induction false} SentenceTokensMonotone(t: Tools, ss: seq<Sentence>, k: nat, m: nat)
    requires k <= m <= |ss|
    ensures SentenceTokens(t, ss[m..]) <= SentenceTokens(t, ss[k..])
    decreases m - k
  {
    if k < m {
      assert ss[k..][1..] == ss[k + 1..];
      SentenceTokensMonotone(t, ss, k + 1, m);
    }
  }

  /** Where the longest suffix within the target starts, looking at or before m. */
  function TailStart(t: Tools, ss: seq<Sentence>, target: nat, m: nat): nat
    requires m <= |ss|
  {
    if m == 0 || SentenceTokens(t, ss[m - 1..]) > target then m else TailStart(t, ss, target, m - 1)
  }

  function Tail(t: Tools, atoms: seq<Atom>, target: nat): seq<Atom> {
    var ss := GroupSentences(t, atoms);
    TailStartInRange(t, ss, target, |ss|);
    OverlapAtoms(ss[TailStart(t, ss, target, |ss|)..])
  }

  lemma {:induction false} TailStartInRange(t: Tools, ss: seq<Sentence>, target: nat, m: nat)
    requires m <= |ss|
    ensures TailStart(t, ss, target, m) <= m
  {
    if m > 0 && SentenceTokens(t, ss[m - 1..]) <= target { TailStartInRange(t, ss, target, m - 1); }
  }

  lemma {:induction false} TailStartFits(t: Tools, ss: seq<Sentence>, target: nat, m: nat)
    requires m <= |ss| && SentenceTokens(t, ss[m..]) <= target
    ensures TailStart(t, ss, target, m) <= m
    ensures IsTailFrom(t, ss, target, OverlapAtoms(ss[TailStart(t, ss, target, m)..]), TailStart(t, ss, target, m))
  {
    if m > 0 {
      if SentenceTokens(t, ss[m - 1..]) > target {
        CannotStartEarlier(t, ss, target, m);
      } else {
        TailStartFits(t, ss, target, m - 1);
      }
    }
  }

  lemma CannotStartEarlier(t: Tools, ss: seq<Sentence>, target: nat, m: nat)
    requires 0 < m <= |ss| && SentenceTokens(t, ss[m - 1..]) > target
    ensures forall k :: 0 <= k < m ==> SentenceTokens(t, ss[k..]) > target
  {
    forall k | 0 <= k < m ensures SentenceTokens(t, ss[k..]) > target {
      SentenceTokensMonotone(t, ss, k, m - 1);
    }
  }

  /** The tail put in front of the next group is the longest sentence suffix within the target, and the only one. */
  lemma TailIsLongest(t: Tools, atoms: seq<Atom>, target: nat, tail: seq<Atom>)
    ensures IsTail(t, atoms, target, tail) <==> tail == Tail(t, atoms, target)
  {
    var ss := GroupSentences(t, atoms);
    assert ss[|ss|..] == [];
    TailStartFits(t, ss, target, |ss|);
    assert IsTail(t, atoms, target, Tail(t, atoms, target));
    if IsTail(t, atoms, target, tail) { TailUnique(t, atoms, target, tail, Tail(t, atoms, target)); }
  }

  /** There is only one longest tail. */
  lemma TailUnique(t: Tools, atoms: seq<Atom>, target: nat, a: seq<Atom>, b: seq<Atom>)
    requires IsTail(t, atoms, target, a) && IsTail(t, atoms, target, b)
    ensures a == b
  {
  }

  function OverlapTokens(o: ChunkingOptions): nat
    requires o.Valid()
  {
    Truncated(Scaled(o.targetTokens, o.overlapRatio))
  }

  function Scaled(n: nat, ratio: real): real { n as real * ratio }

  function Truncated(x: real): nat {
    if x >= 0.0 then x.Floor else 0
  }

  function OverlapAt(t: Tools, o: ChunkingOptions, groups: seq<seq<Atom>>, i: nat): seq<Atom>
    requires o.Valid() && i < |groups|
  {
    if i == 0 then groups[0] else Tail(t, groups[i - 1], OverlapTokens(o)) + groups[i]
  }

  /** Each group but the first is preceded by the overlap tail of the one before. */
  function ApplyOverlap(t: Tools, o: ChunkingOptions, groups: seq<seq<Atom>>): seq<seq<Atom>>
    requires o.Valid()
  {
    seq(|groups|, i requires 0 <= i < |groups| => OverlapAt(t, o, groups, i))
  }

  // ----------------------------------------------------------------- assembling

  function Ids(atoms: seq<Atom>): seq<string> {
    seq(|atoms|, i requires 0 <= i < |atoms| => atoms[i].id)
  }

  function Assemble(t: Tools, o: ChunkingOptions, atoms: seq<Atom>): Result<Chunk, TooLarge>
    requires atoms != []
  {
    var text := t.render(atoms);
    var tokens := t.count(text);
    if tokens as real > o.maxTokens as real * 1.2 then Failure(TooLarge(tokens))
    else Success(Chunk(Ids(atoms), text, tokens, atoms[0].page))
  }

  function Texts(atoms: seq<Atom>): seq<Atom> {
    if atoms == [] then []
    else Texts(atoms[..|atoms| - 1]) + if atoms[|atoms| - 1].kind == TEXT then [atoms[|atoms| - 1]] else []
  }

  function NonTexts(atoms: seq<Atom>): seq<Atom> {
    if atoms == [] then []
    else NonTexts(atoms[..|atoms| - 1]) + if atoms[|atoms| - 1].kind != TEXT then [atoms[|atoms| - 1]] else []
  }

  function Vectors(t: Tools, texts: seq<Atom>): seq<seq<real>> {
    if t.embed == None then seq(|texts|, _ => [1.0, 0.0])
    else t.embed.value(seq(|texts|, i requires 0 <= i < |texts| => texts[i].text))
  }

  function Singles(atoms: seq<Atom>): seq<seq<Atom>> {
    seq(|atoms|, i requires 0 <= i < |atoms| => [atoms[i]])
  }

  /** The groups of text atoms of one visual group, with their overlap. */
  function TextParts(t: Tools, o: ChunkingOptions, texts: seq<Atom>, vectors: seq<seq<real>>): seq<seq<Atom>>
    requires o.Valid() && |texts| == |vectors|
  {
    ApplyOverlap(t, o, MergeTextAtoms(t, o, texts, vectors))
  }

  /** The atom groups that one visual group is assembled from. */
  ghost function Parts(t: Tools, o: ChunkingOptions, visual: seq<Atom>): seq<seq<Atom>>
    requires t.Valid() && o.Valid()
  {
    Singles(NonTexts(visual)) + TextParts(t, o, Texts(visual), Vectors(t, Texts(visual)))
  }

  ghost function AllParts(t: Tools, o: ChunkingOptions, groups: seq<seq<Atom>>): seq<seq<Atom>>
    requires t.Valid() && o.Valid()
  {
    if groups == [] then [] else Parts(t, o, groups[0]) + AllParts(t, o, groups[1..])
  }

  // ----------------------------------------------------------------- end to end

  predicate IsOverlapId(id: string) { |id| >= 3 && id[|id| - 3..] == "#ov" }

  /** The ids that do not mark overlap copies. */
  function Originals(ids: seq<string>): seq<string> {
    if ids == [] then []
    else Originals(ids[..|ids| - 1]) + if IsOverlapId(ids[|ids| - 1]) then [] else [ids[|ids| - 1]]
  }

  function AllIds(chunks: seq<Chunk>): seq<string> {
    if chunks == [] then [] else chunks[0].atomIds + AllIds(chunks[1..])
  }

  lemma {:induction false} OriginalsSplit(a: seq<string>, b: seq<string>)
    ensures Originals(a + b) == Originals(a) + Originals(b)
  {
    if b == [] {
      assert a + b == a;
    } else {
      assert (a + b)[..|a + b| - 1] == a + b[..|b| - 1];
      OriginalsSplit(a, b[..|b| - 1]);
    }
  }

  lemma {:induction false} OriginalsOfOverlap(ids: seq<string>)
    requires forall i :: 0 <= i < |ids| ==> IsOverlapId(ids[i])
    ensures Originals(ids) == []
  {
    if ids != [] { OriginalsOfOverlap(ids[..|ids| - 1]); }
  }

  lemma {:induction false} OriginalsOfPlain(ids: seq<string>)
    requires forall i :: 0 <= i < |ids| ==> !IsOverlapId(ids[i])
    ensures Originals(ids) == ids
  {
    if ids != [] {
      OriginalsOfPlain(ids[..|ids| - 1]);
      assert ids == ids[..|ids| - 1] + [ids[|ids| - 1]];
    }
  }

  /** No atom carries the id of an overlap copy. */
  ghost predicate Plain(atoms: seq<Atom>) {
    forall i :: 0 <= i < |atoms| ==> !IsOverlapId(atoms[i].id)
  }

  lemma TailIdsOverlap(t: Tools, atoms: seq<Atom>, target: nat, tail: seq<Atom>)
    requires tail == Tail(t, atoms, target)
    ensures Originals(Ids(tail)) == []
  {
    TailIsLongest(t, atoms, target, tail);
    var ss := GroupSentences(t, atoms);
    var m: nat :| IsTailFrom(t, ss, target, tail, m);
    forall i | 0 <= i < |tail| ensures IsOverlapId(Ids(tail)[i]) {
      var id := ss[m..][i].atom.id;
      assert tail[i].id == id + "#ov";
    }
    OriginalsOfOverlap(Ids(tail));
  }

  lemma IdsSplit(a: seq<Atom>, b: seq<Atom>)
    ensures Ids(a + b) == Ids(a) + Ids(b)
  {
  }

  function PartIds(parts: seq<seq<Atom>>): seq<string> { Ids(Flatten(parts)) }

  lemma PartIdsSplit(a: seq<seq<Atom>>, b: seq<seq<Atom>>)
    ensures PartIds(a + b) == PartIds(a) + PartIds(b)
  {
    FlattenSplit(a, b);
    IdsSplit(Flatten(a), Flatten(b));
  }

  /** Overlap copies aside, one overlapped group has the ids of the group. */
  lemma OverlapAddsNothingAt(t: Tools, o: ChunkingOptions, groups: seq<seq<Atom>>, i: nat)
    requires o.Valid() && i < |groups| && Plain(Flatten(groups))
    ensures Originals(Ids(ApplyOverlap(t, o, groups)[i])) == Ids(groups[i])
  {
    forall j | 0 <= j < |groups[i]| ensures !IsOverlapId(Ids(groups[i])[j]) {
      InFlatten(groups, i, groups[i][j]);
    }
    OriginalsOfPlain(Ids(groups[i]));
    if i > 0 {
      var tail := Tail(t, groups[i - 1], OverlapTokens(o));
      TailIdsOverlap(t, groups[i - 1], OverlapTokens(o), tail);
      IdsSplit(tail, groups[i]);
      OriginalsSplit(Ids(tail), Ids(groups[i]));
    }
  }

  /** If each group of a list keeps its ids, so does the list. */
  lemma {:induction false} OriginalsAcross(groups: seq<seq<Atom>>, result: seq<seq<Atom>>)
    requires |groups| == |result|
    requires forall i :: 0 <= i < |groups| ==> Originals(Ids(result[i])) == Ids(groups[i])
    ensures Originals(PartIds(result)) == PartIds(groups)
  {
    if groups != [] {
      OriginalsAcross(groups[1..], result[1..]);
      IdsSplit(result[0], Flatten(result[1..]));
      IdsSplit(groups[0], Flatten(groups[1..]));
      OriginalsSplit(Ids(result[0]), PartIds(result[1..]));
    }
  }

  lemma OverlapAddsNothing(t: Tools, o: ChunkingOptions, groups: seq<seq<Atom>>)
    requires o.Valid() && Plain(Flatten(groups))
    ensures Originals(PartIds(ApplyOverlap(t, o, groups))) == PartIds(groups)
  {
    forall i | 0 <= i < |groups| { OverlapAddsNothingAt(t, o, groups, i); }
    OriginalsAcross(groups, ApplyOverlap(t, o, groups));
  }

  lemma LastIsText(group: seq<Atom>)
    requires group != [] && group[|group| - 1].kind == TEXT
    ensures var n := |group| - 1;
      NonTexts(group) == NonTexts(group[..n]) && Texts(group) == Texts(group[..n]) + [group[n]]
  {
    var others := NonTexts(group[..|group| - 1]);
    assert others + [] == others;
  }

  /** Past its first atom a visual group is all text, so taking the other atoms first keeps the order. */
  lemma {:induction false} NonTextsThenTexts(group: seq<Atom>)
    requires NoBoundaryInside(group)
    ensures NonTexts(group) + Texts(group) == group
    ensures |NonTexts(group)| <= 1 && (group[0].kind == TEXT ==> NonTexts(group) == [])
  {
    var n := |group| - 1;
    if n > 0 {
      NonTextsThenTexts(group[..n]);
      assert !IsHardBoundary(group[n - 1], group[n]);
      LastIsText(group);
      assert NonTexts(group[..n]) + (Texts(group[..n]) + [group[n]]) == group[..n] + [group[n]] == group;
    } else {
      assert group == [group[0]] && group[..0] == [];
    }
  }

  lemma {:induction false} SinglesFlatten(atoms: seq<Atom>)
    ensures Flatten(Singles(atoms)) == atoms
  {
    if atoms != [] {
      SinglesFlatten(atoms[1..]);
      assert Singles(atoms)[1..] == Singles(atoms[1..]);
    }
  }

  lemma MergedFlatten(t: Tools, o: ChunkingOptions, texts: seq<Atom>, vectors: seq<seq<real>>)
    requires |texts| == |vectors|
    ensures Flatten(MergeTextAtoms(t, o, texts, vectors)) == texts
  {
    GreedyGroupsFit(t, o, texts, vectors);
    MergeShortSpec(t, GreedyGroups(t, o, texts, vectors), o.minTokens);
  }

  lemma TextPartsKeepIds(t: Tools, o: ChunkingOptions, texts: seq<Atom>, vectors: seq<seq<real>>)
    requires o.Valid() && Plain(texts) && |texts| == |vectors|
    ensures Originals(PartIds(TextParts(t, o, texts, vectors))) == Ids(texts)
  {
    MergedFlatten(t, o, texts, vectors);
    OverlapAddsNothing(t, o, MergeTextAtoms(t, o, texts, vectors));
  }

  lemma PlainParts(a: seq<Atom>, b: seq<Atom>)
    requires Plain(a + b)
    ensures Plain(a) && Plain(b)
  {
    forall i | 0 <= i < |a| ensures !IsOverlapId(a[i].id) { assert (a + b)[i] == a[i]; }
    forall i | 0 <= i < |b| ensures !IsOverlapId(b[i].id) { assert (a + b)[|a| + i] == b[i]; }
  }

  /** Overlap copies aside, the parts of a visual group have its ids, once each, in reading order. */
  lemma PartsKeepIds(t: Tools, o: ChunkingOptions, visual: seq<Atom>)
    requires t.Valid() && o.Valid() && NoBoundaryInside(visual) && Plain(visual)
    ensures Originals(PartIds(Parts(t, o, visual))) == Ids(visual)
  {
    var texts, others := Texts(visual), NonTexts(visual);
    NonTextsThenTexts(visual);
    PlainParts(others, texts);
    TextPartsKeepIds(t, o, texts, Vectors(t, texts));
    SinglesFlatten(others);
    OriginalsOfPlain(Ids(others));
    var tail := TextParts(t, o, texts, Vectors(t, texts));
    PartIdsSplit(Singles(others), tail);
    OriginalsSplit(Ids(others), PartIds(tail));
    IdsSplit(others, texts);
  }

  /** Chunks are assembled in order; the first that is too large ends it. */
  function AssembleAll(t: Tools, o: ChunkingOptions, parts: seq<seq<Atom>>): Result<seq<Chunk>, TooLarge>
    requires forall p :: 0 <= p < |parts| ==> parts[p] != []
  {
    if parts == [] then Success([])
    else
      match Assemble(t, o, parts[0])
      case Failure(e) => Failure(e)
      case Success(c) =>
        match AssembleAll(t, o, parts[1..])
        case Failure(e) => Failure(e)
        case Success(cs) => Success([c] + cs)
  }

  lemma {:induction false} AssembledIds(t: Tools, o: ChunkingOptions, parts: seq<seq<Atom>>)
    requires forall p :: 0 <= p < |parts| ==> parts[p] != []
    ensures AssembleAll(t, o, parts).Success? ==> AllIds(AssembleAll(t, o, parts).value) == PartIds(parts)
    ensures AssembleAll(t, o, parts).Success? <==> forall p :: 0 <= p < |parts| ==> Assemble(t, o, parts[p]).Success?
  {
    if parts != [] {
      AssembledIds(t, o, parts[1..]);
      IdsSplit(parts[0], Flatten(parts[1..]));
      assert forall p :: 1 <= p < |parts| ==> parts[p] == parts[1..][p - 1];
      if AssembleAll(t, o, parts).Success? {
        var cs := AssembleAll(t, o, parts).value;
        assert cs[1..] == AssembleAll(t, o, parts[1..]).value;
      }
    }
  }

  /** Chunks already made, followed by those of a result. */
  function After(sofar: seq<Chunk>, r: Result<seq<Chunk>, TooLarge>): Result<seq<Chunk>, TooLarge> {
    match r
    case Failure(e) => Failure(e)
    case Success(cs) => Success(sofar + cs)
  }

  lemma AfterNone(r: Result<seq<Chunk>, TooLarge>)
    ensures After([], r) == r
  {
    if r.Success? { assert [] + r.value == r.value; }
  }

  lemma AfterTwice(sofar: seq<Chunk>, a: Result<seq<Chunk>, TooLarge>, b: Result<seq<Chunk>, TooLarge>)
    requires a.Success?
    ensures After(After(sofar, a).value, b) == After(sofar, After(a.value, b))
  {
    if b.Success? { assert (sofar + a.value) + b.value == sofar + (a.value + b.value); }
  }

  lemma {:induction false} AssembleSplit(t: Tools, o: ChunkingOptions, a: seq<seq<Atom>>, b: seq<seq<Atom>>)
    requires forall p :: 0 <= p < |a| ==> a[p] != []
    requires forall p :: 0 <= p < |b| ==> b[p] != []
    ensures AssembleAll(t, o, a + b)
      == match AssembleAll(t, o, a)
         case Failure(e) => Failure(e)
         case Success(xs) => After(xs, AssembleAll(t, o, b))
  {
    if a == [] {
      assert a + b == b;
      if AssembleAll(t, o, b).Success? { assert [] + AssembleAll(t, o, b).value == AssembleAll(t, o, b).value; }
    } else {
      assert (a + b)[0] == a[0] && (a + b)[1..] == a[1..] + b;
      AssembleSplit(t, o, a[1..], b);
      if AssembleAll(t, o, a + b).Success? {
        var c := Assemble(t, o, a[0]).value;
        var xs, ys := AssembleAll(t, o, a[1..]).value, AssembleAll(t, o, b).value;
        assert [c] + (xs + ys) == ([c] + xs) + ys;
      }
    }
  }

  lemma {:induction false} AllPartsKeepIds(t: Tools, o: ChunkingOptions, groups: seq<seq<Atom>>)
    requires t.Valid() && o.Valid() && Plain(Flatten(groups))
    requires forall g :: 0 <= g < |groups| ==> NoBoundaryInside(groups[g])
    ensures Originals(PartIds(AllParts(t, o, groups))) == Ids(Flatten(groups))
  {
    if groups != [] {
      PlainParts(groups[0], Flatten(groups[1..]));
      PartsKeepIds(t, o, groups[0]);
      AllPartsKeepIds(t, o, groups[1..]);
      var part, rest := Parts(t, o, groups[0]), AllParts(t, o, groups[1..]);
      PartIdsSplit(part, rest);
      OriginalsSplit(PartIds(part), PartIds(rest));
      IdsSplit(groups[0], Flatten(groups[1..]));
    }
  }

  ghost predicate NonEmpty(groups: seq<seq<Atom>>) {
    forall g :: 0 <= g < |groups| ==> groups[g] != []
  }

  lemma {:induction false} MergeShortNonEmpty(t: Tools, out: seq<seq<Atom>>, rest: seq<seq<Atom>>, minTokens: nat)
    requires out != [] && NonEmpty(out) && NonEmpty(rest)
    ensures NonEmpty(MergeShortFrom(t, out, rest, minTokens))
    decreases rest
  {
    if rest != [] {
      assert NonEmpty(rest[1..]);
      MergeShortNonEmpty(t, if Tokens(t, rest[0]) < minTokens then Absorb(out, rest[0]) else out + [rest[0]],
                         rest[1..], minTokens);
    }
  }

  lemma PartsNonEmpty(t: Tools, o: ChunkingOptions, visual: seq<Atom>)
    requires t.Valid() && o.Valid()
    ensures NonEmpty(Parts(t, o, visual))
  {
    var texts, vectors := Texts(visual), Vectors(t, Texts(visual));
    GreedyGroupsFit(t, o, texts, vectors);
    var groups := GreedyGroups(t, o, texts, vectors);
    if groups != [] && o.mergeShort { MergeShortNonEmpty(t, [groups[0]], groups[1..], o.minTokens); }
    assert NonEmpty(MergeTextAtoms(t, o, texts, vectors));
    assert NonEmpty(TextParts(t, o, texts, vectors));
  }

  lemma {:induction false} AllPartsNonEmpty(t: Tools, o: ChunkingOptions, groups: seq<seq<Atom>>)
    requires t.Valid() && o.Valid()
    ensures NonEmpty(AllParts(t, o, groups))
  {
    if groups != [] {
      PartsNonEmpty(t, o, groups[0]);
      AllPartsNonEmpty(t, o, groups[1..]);
    }
  }

  /** What chunking a list of visual groups returns. */
  ghost function ChunkGroups(t: Tools, o: ChunkingOptions, groups: seq<seq<Atom>>): Result<seq<Chunk>, TooLarge>
    requires t.Valid() && o.Valid()
  {
    AllPartsNonEmpty(t, o, groups);
    AssembleAll(t, o, AllParts(t, o, groups))
  }

  // -- whatever the ids of the input look like

  /** The part is the group it was made from, behind nothing but overlap copies. */
  ghost predicate Overlaid(part: seq<Atom>, bare: seq<Atom>) {
    && |bare| <= |part| && part[|part| - |bare|..] == bare
    && forall i :: 0 <= i < |part| - |bare| ==> IsOverlapId(part[i].id)
  }

  ghost predicate AllOverlaid(parts: seq<seq<Atom>>, bares: seq<seq<Atom>>) {
    |parts| == |bares| && forall p :: 0 <= p < |parts| ==> Overlaid(parts[p], bares[p])
  }

  /** The parts of a visual group before overlap. */
  ghost function BareParts(t: Tools, o: ChunkingOptions, visual: seq<Atom>): seq<seq<Atom>>
    requires t.Valid()
  {
    Singles(NonTexts(visual)) + MergeTextAtoms(t, o, Texts(visual), Vectors(t, Texts(visual)))
  }

  ghost function AllBareParts(t: Tools, o: ChunkingOptions, groups: seq<seq<Atom>>): seq<seq<Atom>>
    requires t.Valid()
  {
    if groups == [] then [] else BareParts(t, o, groups[0]) + AllBareParts(t, o, groups[1..])
  }

  lemma OverlaidAt(t: Tools, o: ChunkingOptions, groups: seq<seq<Atom>>, i: nat)
    requires o.Valid() && i < |groups|
    ensures Overlaid(OverlapAt(t, o, groups, i), groups[i])
  {
    if i > 0 {
      var tail := Tail(t, groups[i - 1], OverlapTokens(o));
      TailIdsOverlap(t, groups[i - 1], OverlapTokens(o), tail);
      assert forall k :: 0 <= k < |tail| ==> Ids(tail)[k] == tail[k].id;
    }
  }

  lemma PartsOverlaid(t: Tools, o: ChunkingOptions, visual: seq<Atom>)
    requires t.Valid() && o.Valid()
    ensures AllOverlaid(Parts(t, o, visual), BareParts(t, o, visual))
  {
    var singles := Singles(NonTexts(visual));
    var merged := MergeTextAtoms(t, o, Texts(visual), Vectors(t, Texts(visual)));
    var tails := ApplyOverlap(t, o, merged);
    forall i | 0 <= i < |merged| ensures Overlaid(tails[i], merged[i]) { OverlaidAt(t, o, merged, i); }
    OverlaidAppend(singles, singles, tails, merged);
  }

  lemma OverlaidAppend(a: seq<seq<Atom>>, x: seq<seq<Atom>>, b: seq<seq<Atom>>, y: seq<seq<Atom>>)
    requires AllOverlaid(a, x) && AllOverlaid(b, y)
    ensures AllOverlaid(a + b, x + y)
  {
  }

  lemma {:induction false} AllPartsOverlaid(t: Tools, o: ChunkingOptions, groups: seq<seq<Atom>>)
    requires t.Valid() && o.Valid()
    ensures AllOverlaid(AllParts(t, o, groups), AllBareParts(t, o, groups))
  {
    if groups != [] {
      PartsOverlaid(t, o, groups[0]);
      AllPartsOverlaid(t, o, groups[1..]);
      OverlaidAppend(Parts(t, o, groups[0]), BareParts(t, o, groups[0]),
                     AllParts(t, o, groups[1..]), AllBareParts(t, o, groups[1..]));
    }
  }

  lemma {:induction false} BarePartsFlatten(t: Tools, o: ChunkingOptions, groups: seq<seq<Atom>>)
    requires t.Valid() && forall g :: 0 <= g < |groups| ==> NoBoundaryInside(groups[g])
    ensures Flatten(AllBareParts(t, o, groups)) == Flatten(groups)
  {
    if groups != [] {
      var texts, others := Texts(groups[0]), NonTexts(groups[0]);
      NonTextsThenTexts(groups[0]);
      SinglesFlatten(others);
      MergedFlatten(t, o, texts, Vectors(t, texts));
      FlattenSplit(Singles(others), MergeTextAtoms(t, o, texts, Vectors(t, texts)));
      BarePartsFlatten(t, o, groups[1..]);
      FlattenSplit(BareParts(t, o, groups[0]), AllBareParts(t, o, groups[1..]));
    }
  }

  lemma {:induction false} AssembledAt(t: Tools, o: ChunkingOptions, parts: seq<seq<Atom>>, p: nat)
    requires NonEmpty(parts) && AssembleAll(t, o, parts).Success?
    ensures |AssembleAll(t, o, parts).value| == |parts|
    ensures p < |parts| ==> AssembleAll(t, o, parts).value[p].atomIds == Ids(parts[p])
  {
    if parts != [] { AssembledAt(t, o, parts[1..], if p > 0 then p - 1 else 0); }
  }

  /** The ids of a chunk are these, behind nothing but ids of overlap copies. */
  ghost predicate Carries(ids: seq<string>, own: seq<string>) {
    && |own| <= |ids| && ids[|ids| - |own|..] == own
    && forall i :: 0 <= i < |ids| - |own| ==> IsOverlapId(ids[i])
  }

  lemma OverlaidCarries(part: seq<Atom>, bare: seq<Atom>)
    requires Overlaid(part, bare)
    ensures Carries(Ids(part), Ids(bare))
  {
    forall i | 0 <= i < |bare| ensures Ids(part)[|part| - |bare|..][i] == Ids(bare)[i] {
      assert part[|part| - |bare|..][i] == bare[i];
    }
    assert Ids(part)[|part| - |bare|..] == Ids(bare);
  }

  /** The input split over the chunks: in order, each chunk carrying its own share. */
  ghost predicate Shares(chunks: seq<Chunk>, atoms: seq<Atom>, own: seq<seq<Atom>>) {
    && Flatten(own) == atoms && |own| == |chunks|
    && forall p :: 0 <= p < |chunks| ==> Carries(chunks[p].atomIds, Ids(own[p]))
  }

  /**
    End to end, for every input: when no chunk is too large, the chunks with their
    leading overlap copies removed carry exactly the input atoms, once each, in
    reading order.
  */
  lemma ChunksCarryAtoms(t: Tools, o: ChunkingOptions, atoms: seq<Atom>)
    requires t.Valid() && o.Valid()
    ensures var r := ChunkGroups(t, o, SplitByVisualBounds(atoms));
      r.Success? ==> exists own :: Shares(r.value, atoms, own)
  {
    var groups := SplitByVisualBounds(atoms);
    var parts, own := AllParts(t, o, groups), AllBareParts(t, o, groups);
    VisualSplitSpec(atoms);
    AllPartsNonEmpty(t, o, groups);
    AllPartsOverlaid(t, o, groups);
    BarePartsFlatten(t, o, groups);
    var r := ChunkGroups(t, o, groups);
    if r.Success? {
      AssembledAt(t, o, parts, 0);
      forall p | 0 <= p < |parts| ensures Carries(r.value[p].atomIds, Ids(own[p])) {
        AssembledAt(t, o, parts, p);
        OverlaidCarries(parts[p], own[p]);
      }
      assert Shares(r.value, atoms, own);
    }
  }

  /** Taking out overlap ids leaves none of them. */
  lemma {:induction false} OriginalsAreNone(ids: seq<string>)
    ensures forall i :: 0 <= i < |Originals(ids)| ==> !IsOverlapId(Originals(ids)[i])
  {
    if ids != [] { OriginalsAreNone(ids[..|ids| - 1]); }
  }

  /**
    Telling overlap copies by their ids alone: what is left of the chunks' ids is
    the ids of the input exactly when no input atom has an id like a copy's.
  */
  lemma ChunksKeepIds(t: Tools, o: ChunkingOptions, atoms: seq<Atom>)
    requires t.Valid() && o.Valid()
    ensures var r := ChunkGroups(t, o, SplitByVisualBounds(atoms));
      r.Success? ==> (Originals(AllIds(r.value)) == Ids(atoms) <==> Plain(atoms))
  {
    var r := ChunkGroups(t, o, SplitByVisualBounds(atoms));
    if Plain(atoms) {
      VisualSplitSpec(atoms);
      AllPartsKeepIds(t, o, SplitByVisualBounds(atoms));
      AllPartsNonEmpty(t, o, SplitByVisualBounds(atoms));
      AssembledIds(t, o, AllParts(t, o, SplitByVisualBounds(atoms)));
    } else if r.Success? && Originals(AllIds(r.value)) == Ids(atoms) {
      OriginalsAreNone(AllIds(r.value));
      forall i | 0 <= i < |atoms| ensures !IsOverlapId(atoms[i].id) {
        assert Ids(atoms)[i] == atoms[i].id;
      }
    }
  }

  // ------------------------------------------------------------------- the loops

  /** What is known of a tail under construction: it is the sentences from m on. */
  ghost predicate TailState(t: Tools, ss: seq<Sentence>, target: nat, m: nat, collected: seq<Atom>, total: nat) {
    && m <= |ss|
    && collected == OverlapAtoms(ss[m..])
    && total == SentenceTokens(t, ss[m..]) <= target
  }

  /** Where nothing more fits, what was collected is the tail. */
  lemma TailFound(t: Tools, atoms: seq<Atom>, target: nat, m: nat, collected: seq<Atom>, total: nat)
    requires TailState(t, GroupSentences(t, atoms), target, m, collected, total)
    requires forall k :: 0 <= k < m ==> SentenceTokens(t, GroupSentences(t, atoms)[k..]) > target
    ensures collected == Tail(t, atoms, target)
  {
    assert IsTailFrom(t, GroupSentences(t, atoms), target, collected, m);
    TailIsLongest(t, atoms, target, collected);
  }

  lemma LastOfPrefix<T>(all: seq<T>, m: nat, before: seq<T>, part: seq<T>, n: nat)
    requires m <= |all| && n < |part| && all[..m] == before + part[..n + 1]
    ensures m > 0 && all[m - 1] == part[n] && all[..m - 1] == before + part[..n]
  {
  }

  lemma OneMoreSentence(t: Tools, ss: seq<Sentence>, m: nat)
    requires 0 < m <= |ss|
    ensures SentenceTokens(t, ss[m - 1..]) == t.count(ss[m - 1].text) + SentenceTokens(t, ss[m..])
    ensures OverlapAtoms(ss[m - 1..]) == [OverlapAtom(ss[m - 1])] + OverlapAtoms(ss[m..])
  {
  }

  method SplitLoop(atoms: seq<Atom>) returns (groups: seq<seq<Atom>>)
    ensures groups == SplitByVisualBounds(atoms)
  {
    groups := [];
    var current: seq<Atom> := [];
    var prev: Option<Atom> := None;
    for i := 0 to |atoms|
      invariant prev == if current == [] then None else Some(current[|current| - 1])
      invariant i > 0 ==> current != []
      invariant groups + SplitFrom(atoms, current, i) == SplitByVisualBounds(atoms)
    {
      var atom := atoms[i];
      if prev.Some? && IsHardBoundary(prev.value, atom) {
        if current != [] {
          groups := groups + [current];
        }
        current := [];
        assert groups + SplitFrom(atoms, [atom], i + 1) == SplitByVisualBounds(atoms);
        assert [] + [atom] == [atom];
      }
      current := current + [atom];
      prev := Some(atom);
    }
    if current != [] {
      groups := groups + [current];
    }
  }

  class Chunker {
    const opts: ChunkingOptions
    const tools: Tools

    ghost predicate Valid() { opts.Valid() && tools.Valid() }

    constructor (opts: ChunkingOptions, tools: Tools)
      requires opts.Valid() && tools.Valid()
      ensures Valid() && this.opts == opts && this.tools == tools
    {
      this.opts, this.tools := opts, tools;
    }

    method MergeLoop(atoms: seq<Atom>, vectors: seq<seq<real>>) returns (groups: seq<seq<Atom>>)
      requires |atoms| == |vectors|
      ensures groups == MergeTextAtoms(tools, opts, atoms, vectors)
    {
      if atoms == [] {
        return [];
      }
      groups := [];
      var current := [atoms[0]];
      var currentTokens := tools.count(atoms[0].text);
      assert [atoms[0]][..0] == [];
      for i := 1 to |atoms|
        invariant current != [] && currentTokens == Tokens(tools, current)
        invariant groups + MergeFrom(tools, opts, atoms, vectors, current, i)
               == GreedyGroups(tools, opts, atoms, vectors)
      {
        var atom := atoms[i];
        var atomTokens := tools.count(atom.text);
        var sim := tools.cosine(vectors[i - 1], vectors[i]);
        ghost var was := current;
        var split := || currentTokens + atomTokens > opts.maxTokens
                     || (currentTokens >= opts.targetTokens && sim < opts.semanticThreshold)
                     || sim < opts.semanticThreshold * 0.7;
        assert split <==> ShouldSplit(tools, opts, was, atom, SimAt(tools, vectors, i));
        if split {
          groups := groups + [current];
          current := [];
          currentTokens := 0;
          assert [] + [atom] == [atom];
        }
        assert (current + [atom])[..|current|] == current;
        current := current + [atom];
        currentTokens := currentTokens + atomTokens;
      }
      groups := groups + [current];
      if opts.mergeShort {
        groups := CoarsenLoop(groups, opts.minTokens);
      }
    }

    method CoarsenLoop(groups: seq<seq<Atom>>, minTokens: nat) returns (out: seq<seq<Atom>>)
      ensures out == MergeShort(tools, groups, minTokens)
    {
      if groups == [] {
        return groups;
      }
      out := [groups[0]];
      for i := 1 to |groups|
        invariant out != []
        invariant MergeShortFrom(tools, out, groups[i..], minTokens) == MergeShort(tools, groups, minTokens)
      {
        var group := groups[i];
        assert groups[i..][0] == group && groups[i..][1..] == groups[i + 1..];
        var tokens := Tokens(tools, group);
        if tokens < minTokens {
          var n := |out| - 1;
          out := out[..n] + [out[n] + group];
        } else {
          out := out + [group];
        }
      }
    }

    /** Takes the sentences of one atom from the end; full when the next one no longer fits. */
    method TailOfAtom(atom: Atom, target: nat, sofar: seq<Atom>, used: nat,
                      ghost ss: seq<Sentence>, ghost before: seq<Sentence>, ghost m0: nat)
      returns (collected: seq<Atom>, total: nat, full: bool, ghost m: nat)
      requires TailState(tools, ss, target, m0, sofar, used)
      requires ss[..m0] == before + AtomSentences(tools, atom)
      ensures TailState(tools, ss, target, m, collected, total)
      ensures !full ==> ss[..m] == before
      ensures full ==> 0 < m && SentenceTokens(tools, ss[m - 1..]) > target
    {
      var sents := tools.sentences(atom.text);
      collected, total, full, m := sofar, used, false, m0;
      assert AtomSentences(tools, atom)[..|sents|] == AtomSentences(tools, atom);
      for n := |sents| downto 0
        invariant TailState(tools, ss, target, m, collected, total)
        invariant ss[..m] == before + AtomSentences(tools, atom)[..n]
      {
        var sent := sents[n];
        var tokens := tools.count(sent);
        LastOfPrefix(ss, m, before, AtomSentences(tools, atom), n);
        OneMoreSentence(tools, ss, m);
        if total + tokens > target {
          full := true;
          return;
        }
        m := m - 1;
        collected := [Atom(atom.id + "#ov", atom.doc, TEXT, sent, atom.page, atom.context)] + collected;
        total := total + tokens;
      }
    }

    /** Sentences from the end, as many as fit the target. */
    method TailLoop(atoms: seq<Atom>, target: nat) returns (collected: seq<Atom>)
      ensures collected == Tail(tools, atoms, target)
    {
      collected := [];
      var total := 0;
      ghost var ss := GroupSentences(tools, atoms);
      ghost var m: nat := |ss|;
      assert atoms[..|atoms|] == atoms;
      for a := |atoms| downto 0
        invariant TailState(tools, ss, target, m, collected, total)
        invariant ss[..m] == GroupSentences(tools, atoms[..a])
      {
        var full;
        assert atoms[..a + 1][..a] == atoms[..a];
        collected, total, full, m :=
          TailOfAtom(atoms[a], target, collected, total, ss, GroupSentences(tools, atoms[..a]), m);
        if full {
          CannotStartEarlier(tools, ss, target, m);
          TailFound(tools, atoms, target, m, collected, total);
          return;
        }
      }
      TailFound(tools, atoms, target, m, collected, total);
    }

    method OverlapLoop(groups: seq<seq<Atom>>) returns (result: seq<seq<Atom>>)
      requires Valid()
      ensures result == ApplyOverlap(tools, opts, groups)
    {
      var overlapTokens := Truncated(Scaled(opts.targetTokens, opts.overlapRatio));
      result := [];
      for i := 0 to |groups|
        invariant |result| == i && forall j :: 0 <= j < i ==> result[j] == OverlapAt(tools, opts, groups, j)
      {
        if i == 0 {
          result := result + [groups[i]];
        } else {
          var tail := TailLoop(groups[i - 1], overlapTokens);
          result := result + [tail + groups[i]];
        }
      }
    }

    /** Chunks of the given parts after those already made, unless one is too large. */
    method AssembleLoop(sofar: seq<Chunk>, parts: seq<seq<Atom>>) returns (r: Result<seq<Chunk>, TooLarge>)
      requires NonEmpty(parts)
      ensures r == After(sofar, AssembleAll(tools, opts, parts))
    {
      var chunks := sofar;
      for p := 0 to |parts|
        invariant After(chunks, AssembleAll(tools, opts, parts[p..])) == After(sofar, AssembleAll(tools, opts, parts))
      {
        assert parts[p..][0] == parts[p] && parts[p..][1..] == parts[p + 1..];
        match Assemble(tools, opts, parts[p])
        case Failure(e) => return Failure(e);
        case Success(c) =>
          ghost var rest := AssembleAll(tools, opts, parts[p + 1..]);
          if rest.Success? { assert chunks + ([c] + rest.value) == (chunks + [c]) + rest.value; }
          chunks := chunks + [c];
      }
      assert chunks + [] == chunks;
      return Success(chunks);
    }

    /** One visual group: its other atoms alone, then its text merged and overlapped. */
    method ChunkVisual(sofar: seq<Chunk>, visual: seq<Atom>) returns (r: Result<seq<Chunk>, TooLarge>)
      requires Valid() && NonEmpty(Parts(tools, opts, visual))
      ensures r == After(sofar, AssembleAll(tools, opts, Parts(tools, opts, visual)))
    {
      var nonText, texts := NonTexts(visual), Texts(visual);
      var singles := Singles(nonText);
      var made := AssembleLoop(sofar, singles);
      ghost var vectors' := Vectors(tools, texts);
      ghost var tail := TextParts(tools, opts, texts, vectors');
      assert Parts(tools, opts, visual)[|singles|..] == tail;
      assert NonEmpty(tail);
      AssembleSplit(tools, opts, singles, tail);
      if made.Failure? {
        return made;
      }
      if texts == [] {
        assert singles + tail == singles;
        return made;
      }
      var vectors := Vectors(tools, texts);
      var merged := MergeLoop(texts, vectors);
      merged := OverlapLoop(merged);
      AfterTwice(sofar, AssembleAll(tools, opts, singles), AssembleAll(tools, opts, tail));
      r := AssembleLoop(made.value, merged);
    }

    /** The whole chunker. */
    method Chunk(atoms: seq<Atom>) returns (r: Result<seq<Chunk>, TooLarge>)
      requires Valid()
      ensures r == ChunkGroups(tools, opts, SplitByVisualBounds(atoms))
      ensures r.Success? ==> exists own :: Shares(r.value, atoms, own)
      ensures r.Success? ==> (Originals(AllIds(r.value)) == Ids(atoms) <==> Plain(atoms))
    {
      ChunksCarryAtoms(tools, opts, atoms);
      ChunksKeepIds(tools, opts, atoms);
      var groups := SplitLoop(atoms);
      var chunks: seq<Chunk> := [];
      AfterNone(ChunkGroups(tools, opts, groups));
      for g := 0 to |groups|
        invariant After(chunks, ChunkGroups(tools, opts, groups[g..])) == ChunkGroups(tools, opts, groups)
      {
        assert groups[g..][0] == groups[g] && groups[g..][1..] == groups[g + 1..];
        PartsNonEmpty(tools, opts, groups[g]);
        AllPartsNonEmpty(tools, opts, groups[g + 1..]);
        AssembleSplit(tools, opts, Parts(tools, opts, groups[g]), AllParts(tools, opts, groups[g + 1..]));
        if AssembleAll(tools, opts, Parts(tools, opts, groups[g])).Success? {
          AfterTwice(chunks, AssembleAll(tools, opts, Parts(tools, opts, groups[g])),
                     ChunkGroups(tools, opts, groups[g + 1..]));
        }
        var made := ChunkVisual(chunks, groups[g]);
        if made.Failure? {
          return made;
        }
        chunks := made.value;
      }
      assert chunks + [] == chunks;
      return Success(chunks);
    }
  }
}
