/** Rewriting the pads of a filter graph: one simultaneous substitution over every `[name]`, and the two rewriters
    built on it, which keep the inner pads of merged fragments apart. */
module Pads {
  import opened Basics

  type Name = string

  datatype Token = Text(c: char) | Pad(name: Name)

  predicate Bracket(c: char) {
    c == '[' || c == ']'
  }

  predicate BracketFree(s: string) {
    forall i :: 0 <= i < |s| ==> !Bracket(s[i])
  }

  // ── reading a graph ──

  /** How many characters come before the first bracket. */
  function Run(s: string): (n: nat)
    ensures n <= |s| && BracketFree(s[..n]) && (n < |s| ==> Bracket(s[n]))
  {
    if s == [] || Bracket(s[0]) then 0 else
      var n := 1 + Run(s[1..]);
      assert forall i {:trigger s[i]} :: 1 <= i < n ==> s[i] == s[1..][..n - 1][i - 1];
      n
  }

  /** A pad starts here: an opening bracket whose next bracket closes it. */
  predicate PadAt(s: string) {
    s != [] && s[0] == '[' && NextCloses(s[1..])
  }

  predicate NextCloses(s: string) {
    Run(s) < |s| && s[Run(s)] == ']'
  }

  function Lex(s: string): seq<Token> {
    if s == [] then []
    else if PadAt(s) then
      var n := Run(s[1..]);
      [Pad(s[1..n + 1])] + Lex(s[n + 2..])
    else [Text(s[0])] + Lex(s[1..])
  }

  function Spell(t: Token): string {
    match t
    case Text(c) => [c]
    case Pad(name) => "[" + name + "]"
  }

  function Render(ts: seq<Token>): string {
    if ts == [] then [] else Spell(ts[0]) + Render(ts[1..])
  }

  lemma PadInPlace(s: string)
    requires PadAt(s)
    ensures var n := Run(s[1..]);
      Spell(Pad(s[1..n + 1])) + s[n + 2..] == s
  {
    var n := Run(s[1..]);
    assert s == [s[0]] + s[1..n + 1] + [s[n + 1]] + s[n + 2..];
  }

  lemma {:induction false} LexLosesNothing(s: string)
    ensures Render(Lex(s)) == s
  {
    if s != [] {
      if PadAt(s) {
        var n := Run(s[1..]);
        LexLosesNothing(s[n + 2..]);
        PadInPlace(s);
      } else {
        LexLosesNothing(s[1..]);
        assert [s[0]] + s[1..] == s;
      }
    }
  }

  /** Tokens that read back as themselves: pad names hold no bracket, and no stray opening bracket is closed by the
      bracket that comes next. */
  ghost predicate Clean(ts: seq<Token>) {
    ts == [] || (
      && Clean(ts[1..])
      && match ts[0]
         case Text(c) => c == '[' ==> !NextCloses(Render(ts[1..]))
         case Pad(name) => BracketFree(name))
  }

  lemma RunOver(name: string, rest: string)
    requires BracketFree(name) && rest != [] && Bracket(rest[0])
    ensures Run(name + rest) == |name|
  {
    var s := name + rest;
    assert s[|name|] == rest[0];
    assert forall i :: 0 <= i < |name| ==> s[i] == name[i];
    assert forall i :: 0 <= i < Run(s) ==> s[..Run(s)][i] == s[i];
  }

  lemma {:induction false} LexIsClean(s: string)
    ensures Clean(Lex(s))
  {
    if s != [] {
      if PadAt(s) {
        var n := Run(s[1..]);
        assert s[1..][..n] == s[1..n + 1];
        LexIsClean(s[n + 2..]);
      } else {
        LexIsClean(s[1..]);
        LexLosesNothing(s[1..]);
      }
    }
  }

  lemma LexPad(name: Name, rest: string)
    requires BracketFree(name)
    ensures Lex("[" + name + "]" + rest) == [Pad(name)] + Lex(rest)
  {
    var s := "[" + name + "]" + rest;
    assert s[1..] == name + ("]" + rest);
    RunOver(name, "]" + rest);
    assert s[1..|name| + 1] == name && s[|name| + 2..] == rest;
  }

  lemma {:induction false} CleanReadsBack(ts: seq<Token>)
    requires Clean(ts)
    ensures Lex(Render(ts)) == ts
  {
    if ts != [] {
      CleanReadsBack(ts[1..]);
      var rest := Render(ts[1..]);
      match ts[0]
      case Pad(name) => LexPad(name, rest);
      case Text(c) =>
        assert ([c] + rest)[1..] == rest;
    }
  }

  // ── substitution ──

  type Resolver = Name -> Option<Name>

  function Resolved(t: Token, resolve: Resolver): Token {
    if t.Pad? && resolve(t.name).Some? then Pad(resolve(t.name).value) else t
  }

  function Mapped(ts: seq<Token>, resolve: Resolver): (r: seq<Token>)
    ensures |r| == |ts| && forall i :: 0 <= i < |ts| ==> r[i] == Resolved(ts[i], resolve)
  {
    if ts == [] then [] else [Resolved(ts[0], resolve)] + Mapped(ts[1..], resolve)
  }

  /** One pass over the text, as the code makes it: each pad found is replaced or left, and scanning goes on after
      it. */
  function Substitute(s: string, resolve: Resolver): string {
    if s == [] then []
    else if PadAt(s) then
      var n := Run(s[1..]);
      var name := s[1..n + 1];
      (if resolve(name).Some? then "[" + resolve(name).value + "]" else "[" + name + "]") +
      Substitute(s[n + 2..], resolve)
    else [s[0]] + Substitute(s[1..], resolve)
  }

  lemma {:induction false} SubstituteMaps(s: string, resolve: Resolver)
    ensures Substitute(s, resolve) == Render(Mapped(Lex(s), resolve))
  {
    if s != [] {
      if PadAt(s) {
        SubstituteMaps(s[Run(s[1..]) + 2..], resolve);
      } else {
        SubstituteMaps(s[1..], resolve);
      }
    }
  }

  /** Replacement names are names: they hold no bracket. */
  ghost predicate Plain(resolve: Resolver) {
    forall n: Name :: resolve(n).Some? ==> BracketFree(resolve(n).value)
  }

  lemma {:induction false} NextBracketStays(ts: seq<Token>, resolve: Resolver)
    requires Clean(ts) && Plain(resolve)
    ensures NextCloses(Render(Mapped(ts, resolve))) == NextCloses(Render(ts))
  {
    if ts != [] && ts[0].Text? {
      NextBracketStays(ts[1..], resolve);
      RunSkips(ts[0].c, Render(ts[1..]));
      RunSkips(ts[0].c, Render(Mapped(ts[1..], resolve)));
    }
  }

  lemma RunSkips(c: char, rest: string)
    ensures NextCloses([c] + rest) == if Bracket(c) then c == ']' else NextCloses(rest)
  {
    assert ([c] + rest)[1..] == rest;
  }

  lemma {:induction false} MappedIsClean(ts: seq<Token>, resolve: Resolver)
    requires Clean(ts) && Plain(resolve)
    ensures Clean(Mapped(ts, resolve))
  {
    if ts != [] {
      MappedIsClean(ts[1..], resolve);
      NextBracketStays(ts[1..], resolve);
      assert Mapped(ts, resolve)[1..] == Mapped(ts[1..], resolve);
    }
  }

  /** The substitution is simultaneous: read back, the result is the old graph with every pad resolved once and
      everything else as it was.  No replacement is ever read as a pad to replace. */
  lemma SubstitutionIsSimultaneous(s: string, resolve: Resolver)
    requires Plain(resolve)
    ensures Lex(Substitute(s, resolve)) == Mapped(Lex(s), resolve)
  {
    SubstituteMaps(s, resolve);
    LexIsClean(s);
    MappedIsClean(Lex(s), resolve);
    CleanReadsBack(Mapped(Lex(s), resolve));
  }

  lemma PadComesFrom(s: string, resolve: Resolver, pad: Name) returns (name: Name)
    requires Plain(resolve) && Pad(pad) in Lex(Substitute(s, resolve))
    ensures Pad(name) in Lex(s) && Resolved(Pad(name), resolve) == Pad(pad)
  {
    SubstitutionIsSimultaneous(s, resolve);
    var ts := Lex(s);
    var i :| 0 <= i < |ts| && Mapped(ts, resolve)[i] == Pad(pad);
    name := ts[i].name;
  }

  // ── names ──

  predicate Letter(c: char) {
    'a' <= c <= 'z' || 'A' <= c <= 'Z'
  }

  predicate Digit(c: char) {
    '0' <= c <= '9'
  }

  predicate Word(c: char) {
    Letter(c) || Digit(c) || c == '_'
  }

  /** An inner pad: a letter, then letters, digits and underscores. */
  predicate Inner(name: Name) {
    name != "" && Letter(name[0]) && forall i :: 0 <= i < |name| ==> Word(name[i])
  }

  /** An input stream: digits, a colon, and `a` or `v`. */
  predicate Stream(name: Name) {
    && |name| >= 3
    && name[|name| - 2] == ':' && (name[|name| - 1] == 'a' || name[|name| - 1] == 'v')
    && forall i :: 0 <= i < |name| - 2 ==> Digit(name[i])
  }

  predicate Flat(tag: string) {
    forall i :: 0 <= i < |tag| ==> tag[i] != '_'
  }

  /** What comes after the last underscore. */
  function Suffix(name: Name): string {
    if name == "" || name[|name| - 1] == '_' then ""
    else Suffix(name[..|name| - 1]) + [name[|name| - 1]]
  }

  lemma {:induction false} SuffixIsTheTag(name: Name, tag: string)
    requires Flat(tag)
    ensures Suffix(name + "_" + tag) == tag
    decreases |tag|
  {
    var all := name + "_" + tag;
    if tag != "" {
      var t := tag[..|tag| - 1];
      SuffixIsTheTag(name, t);
      assert all[..|all| - 1] == name + "_" + t;
      assert t + [tag[|tag| - 1]] == tag;
    }
  }

  /** Tagged names are equal only when both name and tag are, if tags hold no underscore. */
  lemma TaggingIsInjective(n1: Name, tag1: string, n2: Name, tag2: string)
    requires Flat(tag1) && Flat(tag2) && n1 + "_" + tag1 == n2 + "_" + tag2
    ensures n1 == n2 && tag1 == tag2
  {
    SuffixIsTheTag(n1, tag1);
    SuffixIsTheTag(n2, tag2);
    assert (n1 + "_" + tag1)[..|n1|] == n1 && (n2 + "_" + tag2)[..|n2|] == n2;
  }

  predicate HasDouble(name: Name) {
    exists i :: 0 < i < |name| && name[i - 1] == '_' && name[i] == '_'
  }

  // ── merging fragments ──

  datatype Rewired = Rewired(graph: string) | Unallocated(pad: Name)

  predicate Orphan(name: Name, subst: map<Name, Name>) {
    name !in subst && Stream(name)
  }

  /** The first input pad nobody allocated. */
  function FirstOrphan(ts: seq<Token>, subst: map<Name, Name>): Option<Name> {
    if ts == [] then None
    else if ts[0].Pad? && Orphan(ts[0].name, subst) then Some(ts[0].name)
    else FirstOrphan(ts[1..], subst)
  }

  function Merging(tag: string, subst: map<Name, Name>): Resolver {
    (name: Name) =>
      if name in subst then Some(subst[name])
      else if Inner(name) then Some(name + "__" + tag)
      else None
  }

  /** A boundary pad becomes its merged name, any other inner pad is tagged, an input pad nobody allocated is an
      error. */
  function Rewire(fragment: string, tag: string, subst: map<Name, Name>): Rewired {
    var orphan := FirstOrphan(Lex(fragment), subst);
    if orphan.Some? then Unallocated(orphan.value) else Rewired(Substitute(fragment, Merging(tag, subst)))
  }

  predicate HasPad(ts: seq<Token>, name: Name) {
    Pad(name) in ts
  }

  lemma {:induction false} OrphansAreErrors(ts: seq<Token>, subst: map<Name, Name>)
    ensures FirstOrphan(ts, subst) == None <==> forall n :: HasPad(ts, n) ==> !Orphan(n, subst)
    ensures FirstOrphan(ts, subst).Some? ==>
      HasPad(ts, FirstOrphan(ts, subst).value) && Orphan(FirstOrphan(ts, subst).value, subst)
  {
    if ts != [] {
      OrphansAreErrors(ts[1..], subst);
      assert forall n :: HasPad(ts, n) <==> ts[0] == Pad(n) || HasPad(ts[1..], n);
    }
  }

  ghost predicate PlainNames(tag: string, subst: map<Name, Name>) {
    BracketFree(tag) && forall n :: n in subst ==> BracketFree(subst[n])
  }

  lemma MergingIsPlain(tag: string, subst: map<Name, Name>)
    requires PlainNames(tag, subst)
    ensures Plain(Merging(tag, subst))
  {
  }

  /** A pad of the result that is not a boundary pad comes from an inner pad of the fragment, with the tag. */
  lemma MergedPadsAreTagged(fragment: string, tag: string, subst: map<Name, Name>, pad: Name) returns (name: Name)
    requires PlainNames(tag, subst) && Rewire(fragment, tag, subst).Rewired?
    requires HasPad(Lex(Rewire(fragment, tag, subst).graph), pad) && Inner(pad)
    requires forall n :: n in subst ==> subst[n] != pad
    ensures HasPad(Lex(fragment), name) && Inner(name) && pad == name + "__" + tag
  {
    MergingIsPlain(tag, subst);
    name := PadComesFrom(fragment, Merging(tag, subst), pad);
  }

  /** Hygiene: fragments merged under different underscore-free tags share no inner pad, and no inner pad is a
      merged name without a double underscore. */
  lemma MergedFragmentsShareNothing(f1: string, tag1: string, s1: map<Name, Name>, f2: string, tag2: string,
                                    s2: map<Name, Name>, pad: Name)
    requires PlainNames(tag1, s1) && PlainNames(tag2, s2) && Flat(tag1) && Flat(tag2)
    requires Rewire(f1, tag1, s1).Rewired? && HasPad(Lex(Rewire(f1, tag1, s1).graph), pad) && Inner(pad)
    requires forall n :: n in s1 ==> s1[n] != pad
    ensures HasDouble(pad)
    ensures
      && Rewire(f2, tag2, s2).Rewired? && HasPad(Lex(Rewire(f2, tag2, s2).graph), pad)
      && (forall n :: n in s2 ==> s2[n] != pad)
      ==> tag1 == tag2
  {
    var n1 := MergedPadsAreTagged(f1, tag1, s1, pad);
    assert pad[|n1|] == '_' && pad[|n1| + 1] == '_';
    if Rewire(f2, tag2, s2).Rewired? && HasPad(Lex(Rewire(f2, tag2, s2).graph), pad)
      && (forall n :: n in s2 ==> s2[n] != pad) {
      var n2 := MergedPadsAreTagged(f2, tag2, s2, pad);
      assert n1 + "__" + tag1 == (n1 + "_") + "_" + tag1 && n2 + "__" + tag2 == (n2 + "_") + "_" + tag2;
      TaggingIsInjective(n1 + "_", tag1, n2 + "_", tag2);
    }
  }
}
