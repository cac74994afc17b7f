/** Chaining accent subgraphs: each one's input is wired to the previous one's output, and a graph in which every
    pad is used once comes out of graphs in which every pad is used once. */
module PadChains {
  import opened Basics
  import opened Pads

  const SOURCE := "0:v"
  const SINK := "vout"

  // ── how pads are used ──

  /** A pad before a filter is read, a pad after it is written; a filter ends at a separator. */
  predicate Separator(c: char) {
    c == ';' || c == ','
  }

  /** Every use of a pad: its name, and whether it is read.  `reading` says what a pad here would be. */
  function Uses(ts: seq<Token>, reading: bool): multiset<(Name, bool)> {
    if ts == [] then multiset{}
    else match ts[0]
      case Pad(name) => multiset{(name, reading)} + Uses(ts[1..], reading)
      case Text(c) => Uses(ts[1..], Separator(c))
  }

  /** One input read once, one output written once, and every other pad written once and read once or not used. */
  ghost predicate SingleUse(u: multiset<(Name, bool)>, source: Name, sink: Name) {
    && source != sink
    && u[(source, true)] == 1 && u[(source, false)] == 0
    && u[(sink, true)] == 0 && u[(sink, false)] == 1
    && forall n :: n != source && n != sink ==> u[(n, true)] == u[(n, false)] <= 1
  }

  ghost predicate Used(u: multiset<(Name, bool)>, n: Name) {
    u[(n, true)] + u[(n, false)] > 0
  }

  /** Two graphs that share only the pad between them make one. */
  lemma Compose(u: multiset<(Name, bool)>, w: multiset<(Name, bool)>, source: Name, link: Name, sink: Name)
    requires SingleUse(u, source, link) && SingleUse(w, link, sink) && source != sink
    requires forall n :: Used(u, n) && Used(w, n) ==> n == link
    ensures SingleUse(u + w, source, sink)
  {
    assert Used(u, source) && Used(w, sink);
    forall n | n != source && n != sink ensures (u + w)[(n, true)] == (u + w)[(n, false)] <= 1 {
      if n != link {
        assert !(Used(u, n) && Used(w, n));
      }
    }
  }

  lemma {:induction false} UsesOfParts(a: seq<Token>, b: seq<Token>, reading: bool)
    ensures Uses(a + [Text(';')] + b, reading) == Uses(a, reading) + Uses(b, true)
    decreases |a|
  {
    var all := a + [Text(';')] + b;
    if a == [] {
      assert all[1..] == b;
    } else {
      assert all[1..] == a[1..] + [Text(';')] + b;
      UsesOfParts(a[1..], b, After(a[0], reading));
    }
  }

  function NewName(n: Name, resolve: Resolver): Name {
    if resolve(n).Some? then resolve(n).value else n
  }

  predicate After(t: Token, reading: bool) {
    match t
    case Pad(_) => reading
    case Text(c) => Separator(c)
  }

  function Use(t: Token, reading: bool): multiset<(Name, bool)> {
    if t.Pad? then multiset{(t.name, reading)} else multiset{}
  }

  lemma FirstUse(ts: seq<Token>, reading: bool)
    requires ts != []
    ensures Uses(ts, reading) == Use(ts[0], reading) + Uses(ts[1..], After(ts[0], reading))
  {
  }

  /** A renaming that keeps a name apart from the others keeps its uses. */
  lemma {:induction false} RenamedUses(ts: seq<Token>, reading: bool, resolve: Resolver, n: Name, d: bool)
    requires forall m :: Pad(m) in ts && NewName(m, resolve) == NewName(n, resolve) ==> m == n
    ensures Uses(Mapped(ts, resolve), reading)[(NewName(n, resolve), d)] == Uses(ts, reading)[(n, d)]
    decreases |ts|
  {
    if ts != [] {
      FirstUse(ts, reading);
      FirstUse(Mapped(ts, resolve), reading);
      assert Mapped(ts, resolve)[1..] == Mapped(ts[1..], resolve);
      assert forall t :: t in ts[1..] ==> t in ts;
      RenamedUses(ts[1..], After(ts[0], reading), resolve, n, d);
      assert ts[0].Pad? ==> Pad(ts[0].name) in ts;
    }
  }

  lemma {:induction false} NoUse(ts: seq<Token>, reading: bool, n: Name, d: bool)
    requires Pad(n) !in ts
    ensures Uses(ts, reading)[(n, d)] == 0
    decreases |ts|
  {
    if ts != [] {
      NoUse(ts[1..], After(ts[0], reading), n, d);
    }
  }

  // ── numbered names ──

  function Decimal(n: nat): string {
    var digit := ['0' + (n % 10) as char];
    if n < 10 then digit else Decimal(n / 10) + digit
  }

  lemma {:induction false} DecimalIsWord(n: nat)
    ensures Decimal(n) != "" && forall i :: 0 <= i < |Decimal(n)| ==> Digit(Decimal(n)[i])
    decreases n
  {
    if n >= 10 {
      DecimalIsWord(n / 10);
    }
  }

  lemma {:induction false} DecimalIsInjective(m: nat, n: nat)
    requires Decimal(m) == Decimal(n)
    ensures m == n
    decreases m
  {
    var d, e := Decimal(m), Decimal(n);
    DecimalIsWord(m / 10);
    DecimalIsWord(n / 10);
    assert d[|d| - 1] == e[|e| - 1];
    assert m % 10 == n % 10;
    if m >= 10 && n >= 10 {
      assert d[..|d| - 1] == Decimal(m / 10) && e[..|e| - 1] == Decimal(n / 10);
      DecimalIsInjective(m / 10, n / 10);
    }
  }

  function Tag(k: nat): string {
    "a" + Decimal(k)
  }

  function Link(k: nat): Name {
    "fa" + Decimal(k)
  }

  lemma TagsAndLinks(k: nat)
    ensures Flat(Tag(k)) && Flat(Link(k)) && BracketFree(Tag(k)) && BracketFree(Link(k))
    ensures Link(k) != SOURCE && Link(k) != SINK
  {
    DecimalIsWord(k);
    assert Link(k)[0] == 'f';
  }

  lemma NumbersDiffer(j: nat, k: nat)
    requires j != k
    ensures Tag(j) != Tag(k) && Link(j) != Link(k)
  {
    assert Tag(j)[1..] == Decimal(j) && Tag(k)[1..] == Decimal(k);
    assert Link(j)[2..] == Decimal(j) && Link(k)[2..] == Decimal(k);
    if Decimal(j) == Decimal(k) {
      DecimalIsInjective(j, k);
    }
  }

  // ── the chain ──

  function Bare(pad: string): Name {
    if |pad| >= 2 && pad[0] == '[' && pad[|pad| - 1] == ']' then pad[1..|pad| - 1] else pad
  }

  /** The input pad, the output pad, and a tag on every inner pad. */
  function Namespacing(tag: string, input: string, output: string): Resolver {
    (name: Name) =>
      if name == SOURCE then Some(Bare(input))
      else if name == SINK then Some(Bare(output))
      else if Inner(name) then Some(name + "_" + tag)
      else None
  }

  function OutName(k: nat, count: nat): Name {
    if k + 1 == count then SINK else Link(k)
  }

  function InName(k: nat): Name {
    if k == 0 then SOURCE else Link(k - 1)
  }

  function Label(name: Name): string {
    "[" + name + "]"
  }

  function Part(subs: seq<string>, k: nat): string
    requires k < |subs|
  {
    Substitute(subs[k], Namespacing(Tag(k), Label(InName(k)), Label(OutName(k, |subs|))))
  }

  /** The first k parts, joined. */
  function Prefix(subs: seq<string>, k: nat): string
    requires 0 < k <= |subs|
  {
    if k == 1 then Part(subs, 0) else Prefix(subs, k - 1) + ";" + Part(subs, k - 1)
  }

  function JoinedParts(parts: seq<string>): string {
    if parts == [] then ""
    else if |parts| == 1 then parts[0]
    else JoinedParts(parts[..|parts| - 1]) + ";" + parts[|parts| - 1]
  }

  lemma Labels()
    ensures Label(SOURCE) == "[0:v]" && Label(SINK) == "[vout]"
  {
  }

  lemma JoinMore(parts: seq<string>, part: string)
    ensures JoinedParts(parts + [part]) == if parts == [] then part else JoinedParts(parts) + ";" + part
  {
    assert (parts + [part])[..|parts|] == parts;
  }

  /** The chain of the built accents; nothing to apply gives no filter. */
  method BuildChain(subs: seq<string>) returns (graph: Option<string>)
    ensures graph == if subs == [] then None else Some(Prefix(subs, |subs|))
  {
    if subs == [] {
      return None;
    }
    var chain: seq<string> := [];
    var prev := "[0:v]";
    Labels();
    var k := 0;
    while k < |subs|
      invariant 0 <= k <= |subs| && |chain| == k
      invariant k < |subs| ==> prev == Label(InName(k))
      invariant k > 0 ==> JoinedParts(chain) == Prefix(subs, k)
    {
      var out := if k == |subs| - 1 then "[vout]" else "[" + ("fa" + Decimal(k)) + "]";
      var part := Substitute(subs[k], Namespacing(Tag(k), prev, out));
      JoinMore(chain, part);
      chain := chain + [part];
      prev := out;
      k := k + 1;
    }
    return Some(JoinedParts(chain));
  }

  // ── graphs without stray brackets ──

  ghost predicate Tidy(ts: seq<Token>) {
    forall i :: 0 <= i < |ts| ==> match ts[i] case Text(c) => !Bracket(c) case Pad(name) => BracketFree(name)
  }

  lemma LexText(c: char, rest: string)
    requires !Bracket(c)
    ensures Lex([c] + rest) == [Text(c)] + Lex(rest)
  {
    assert ([c] + rest)[1..] == rest;
  }

  lemma {:induction false} LexAfter(ts: seq<Token>, rest: string)
    requires Tidy(ts)
    ensures Lex(Render(ts) + rest) == ts + Lex(rest)
    decreases |ts|
  {
    if ts == [] {
      assert Render(ts) + rest == rest && ts + Lex(rest) == Lex(rest);
    } else {
      LexAfter(ts[1..], rest);
      LexOne(ts[0], Render(ts[1..]) + rest);
      Associates(Spell(ts[0]), Render(ts[1..]), rest);
      Associates([ts[0]], ts[1..], Lex(rest));
      assert [ts[0]] + ts[1..] == ts;
    }
  }

  lemma Associates<T>(a: seq<T>, b: seq<T>, c: seq<T>)
    ensures a + b + c == a + (b + c)
  {
  }

  lemma LexOne(t: Token, rest: string)
    requires Tidy([t])
    ensures Lex(Spell(t) + rest) == [t] + Lex(rest)
  {
    assert [t][0] == t;
    match t
    case Pad(name) => LexPad(name, rest);
    case Text(c) => LexText(c, rest);
  }

  lemma LexJoined(a: string, b: string)
    requires Tidy(Lex(a))
    ensures Lex(a + ";" + b) == Lex(a) + [Text(';')] + Lex(b)
  {
    LexLosesNothing(a);
    LexAfter(Lex(a), ";" + b);
    assert a + ";" + b == a + (";" + b);
    LexText(';', b);
    assert Lex(a) + ([Text(';')] + Lex(b)) == Lex(a) + [Text(';')] + Lex(b);
  }

  // ── one part ──

  predicate OwnName(n: Name) {
    n == SOURCE || n == SINK || Inner(n)
  }

  /** What an accent builder hands over: pads properly written, with its own names, each used once. */
  ghost predicate Proper(sub: string) {
    && Tidy(Lex(sub))
    && (forall n :: Pad(n) in Lex(sub) ==> OwnName(n))
    && SingleUse(Uses(Lex(sub), true), SOURCE, SINK)
  }

  function Tagged(x: Name, k: nat): Name {
    x + "_" + Tag(k)
  }

  function Renaming(k: nat, count: nat): Resolver {
    Namespacing(Tag(k), Label(InName(k)), Label(OutName(k, count)))
  }

  lemma OuterNames()
    ensures Flat(SOURCE) && Flat(SINK) && BracketFree(SOURCE) && BracketFree(SINK) && SOURCE != SINK
  {
    assert SOURCE == ['0', ':', 'v'] && SINK == ['v', 'o', 'u', 't'];
  }

  lemma BareLabel(n: Name)
    ensures Bare(Label(n)) == n
  {
    assert Label(n)[|n| + 1] == ']' && Label(n)[1..|n| + 1] == n;
  }

  lemma EndNames(k: nat, count: nat)
    requires k < count
    ensures Flat(InName(k)) && Flat(OutName(k, count)) && InName(k) != OutName(k, count)
    ensures BracketFree(InName(k)) && BracketFree(OutName(k, count))
    ensures Bare(Label(InName(k))) == InName(k) && Bare(Label(OutName(k, count))) == OutName(k, count)
  {
    OuterNames();
    BareLabel(InName(k));
    BareLabel(OutName(k, count));
    TagsAndLinks(k);
    if k > 0 {
      TagsAndLinks(k - 1);
      NumbersDiffer(k - 1, k);
    }
  }

  lemma RenamingIsPlain(k: nat, count: nat)
    requires k < count
    ensures Plain(Renaming(k, count))
  {
    EndNames(k, count);
    TagsAndLinks(k);
  }

  lemma NewNameIs(k: nat, count: nat, n: Name)
    requires k < count && OwnName(n)
    ensures NewName(n, Renaming(k, count)) ==
            if n == SOURCE then InName(k) else if n == SINK then OutName(k, count) else Tagged(n, k)
  {
    EndNames(k, count);
  }

  lemma TaggedIsNotFlat(x: Name, k: nat)
    ensures !Flat(Tagged(x, k))
  {
    assert Tagged(x, k)[|x|] == '_';
  }

  /** Different pads of one accent stay different. */
  lemma NewNamesDiffer(k: nat, count: nat, m: Name, n: Name)
    requires k < count && OwnName(m) && OwnName(n) && m != n
    ensures NewName(m, Renaming(k, count)) != NewName(n, Renaming(k, count))
  {
    NewNameIs(k, count, m);
    NewNameIs(k, count, n);
    EndNames(k, count);
    TagsAndLinks(k);
    TaggedIsNotFlat(m, k);
    TaggedIsNotFlat(n, k);
    if Tagged(m, k) == Tagged(n, k) {
      TaggingIsInjective(m, Tag(k), n, Tag(k));
    }
  }

  lemma PartTokens(subs: seq<string>, k: nat)
    requires k < |subs| && Proper(subs[k])
    ensures Lex(Part(subs, k)) == Mapped(Lex(subs[k]), Renaming(k, |subs|))
    ensures Tidy(Lex(Part(subs, k)))
  {
    RenamingIsPlain(k, |subs|);
    SubstitutionIsSimultaneous(subs[k], Renaming(k, |subs|));
  }

  /** Where the pads of a part come from. */
  lemma PartNames(subs: seq<string>, k: nat, n: Name) returns (m: Name)
    requires k < |subs| && Proper(subs[k]) && Pad(n) in Lex(Part(subs, k))
    ensures Pad(m) in Lex(subs[k]) && OwnName(m) && n == NewName(m, Renaming(k, |subs|))
  {
    RenamingIsPlain(k, |subs|);
    m := PadComesFrom(subs[k], Renaming(k, |subs|), n);
  }

  lemma PartUses(subs: seq<string>, k: nat, m: Name, d: bool)
    requires k < |subs| && Proper(subs[k]) && OwnName(m)
    ensures Uses(Lex(Part(subs, k)), true)[(NewName(m, Renaming(k, |subs|)), d)] == Uses(Lex(subs[k]), true)[(m, d)]
  {
    PartTokens(subs, k);
    forall p | Pad(p) in Lex(subs[k]) && NewName(p, Renaming(k, |subs|)) == NewName(m, Renaming(k, |subs|))
      ensures p == m
    {
      if p != m {
        NewNamesDiffer(k, |subs|, p, m);
      }
    }
    RenamedUses(Lex(subs[k]), true, Renaming(k, |subs|), m, d);
  }

  /** A part uses each of its pads once, between the link before it and the link after it. */
  lemma PartSingleUse(subs: seq<string>, k: nat)
    requires k < |subs| && Proper(subs[k])
    ensures SingleUse(Uses(Lex(Part(subs, k)), true), InName(k), OutName(k, |subs|))
  {
    var count := |subs|;
    var u := Uses(Lex(Part(subs, k)), true);
    EndNames(k, count);
    NewNameIs(k, count, SOURCE);
    NewNameIs(k, count, SINK);
    PartUses(subs, k, SOURCE, true);
    PartUses(subs, k, SOURCE, false);
    PartUses(subs, k, SINK, true);
    PartUses(subs, k, SINK, false);
    forall n | n != InName(k) && n != OutName(k, count) ensures u[(n, true)] == u[(n, false)] <= 1 {
      PartOther(subs, k, n);
    }
  }

  lemma PartOther(subs: seq<string>, k: nat, n: Name)
    requires k < |subs| && Proper(subs[k]) && n != InName(k) && n != OutName(k, |subs|)
    ensures var u := Uses(Lex(Part(subs, k)), true); u[(n, true)] == u[(n, false)] <= 1
  {
    if Pad(n) in Lex(Part(subs, k)) {
      var m := PartNames(subs, k, n);
      NewNameIs(k, |subs|, m);
      PartUses(subs, k, m, true);
      PartUses(subs, k, m, false);
    } else {
      NoUse(Lex(Part(subs, k)), true, n, true);
      NoUse(Lex(Part(subs, k)), true, n, false);
    }
  }

  // ── the whole chain ──

  /** A name the first k parts may use, besides the link they end in. */
  ghost predicate Earlier(n: Name, k: nat) {
    || n == SOURCE
    || (exists j: nat :: j < k && n == Link(j))
    || (exists j: nat, x: Name :: j < k && n == Tagged(x, j))
  }

  ghost predicate PrefixOk(subs: seq<string>, k: nat)
    requires 0 < k <= |subs|
  {
    && Tidy(Lex(Prefix(subs, k)))
    && SingleUse(Uses(Lex(Prefix(subs, k)), true), SOURCE, OutName(k - 1, |subs|))
    && forall n :: Pad(n) in Lex(Prefix(subs, k)) ==> Earlier(n, k) || n == OutName(k - 1, |subs|)
  }

  lemma LinkIsNew(k: nat)
    ensures !Earlier(Link(k), k)
  {
    TagsAndLinks(k);
    forall j: nat | j < k ensures Link(k) != Link(j) {
      NumbersDiffer(j, k);
    }
    forall j: nat, x: Name | j < k ensures Link(k) != Tagged(x, j) {
      TaggedIsNotFlat(x, j);
    }
  }

  lemma SinkIsNew(k: nat)
    ensures !Earlier(SINK, k)
  {
    OuterNames();
    forall j: nat | j < k ensures SINK != Link(j) {
      TagsAndLinks(j);
    }
    forall j: nat, x: Name | j < k ensures SINK != Tagged(x, j) {
      TaggedIsNotFlat(x, j);
    }
  }

  lemma TaggedIsNew(m: Name, k: nat)
    ensures !Earlier(Tagged(m, k), k)
  {
    OuterNames();
    TaggedIsNotFlat(m, k);
    forall j: nat | j < k ensures Tagged(m, k) != Link(j) {
      TagsAndLinks(j);
    }
    forall j: nat, x: Name | j < k ensures Tagged(m, k) != Tagged(x, j) {
      TagsAndLinks(j);
      TagsAndLinks(k);
      NumbersDiffer(j, k);
      if Tagged(m, k) == Tagged(x, j) {
        TaggingIsInjective(m, Tag(k), x, Tag(j));
      }
    }
  }

  lemma PartIsNew(subs: seq<string>, k: nat, n: Name)
    requires 0 < k < |subs| && Proper(subs[k]) && Pad(n) in Lex(Part(subs, k)) && n != InName(k)
    ensures !Earlier(n, k) && (Earlier(n, k + 1) || n == OutName(k, |subs|))
  {
    var m := PartNames(subs, k, n);
    NewNameIs(k, |subs|, m);
    if m == SINK {
      LinkIsNew(k);
      SinkIsNew(k);
    } else {
      TaggedIsNew(m, k);
    }
  }

  lemma LinkIsEarlier(j: nat, k: nat)
    requires j < k
    ensures Earlier(Link(j), k)
  {
  }

  lemma EarlierGrows(n: Name, k: nat)
    requires Earlier(n, k)
    ensures Earlier(n, k + 1)
  {
  }

  lemma {:induction false} UsedIsThere(ts: seq<Token>, reading: bool, n: Name)
    requires Used(Uses(ts, reading), n)
    ensures Pad(n) in ts
  {
    if Pad(n) !in ts {
      NoUse(ts, reading, n, true);
      NoUse(ts, reading, n, false);
    }
  }

  lemma FirstPrefix(subs: seq<string>)
    requires subs != [] && Proper(subs[0])
    ensures PrefixOk(subs, 1)
  {
    PartTokens(subs, 0);
    PartSingleUse(subs, 0);
    forall n | Pad(n) in Lex(Part(subs, 0)) ensures Earlier(n, 1) || n == OutName(0, |subs|) {
      var m := PartNames(subs, 0, n);
      NewNameIs(0, |subs|, m);
    }
  }

  lemma SharedIsTheLink(subs: seq<string>, k: nat, n: Name)
    requires 0 < k < |subs| && PrefixOk(subs, k) && Proper(subs[k])
    requires Used(Uses(Lex(Prefix(subs, k)), true), n) && Used(Uses(Lex(Part(subs, k)), true), n)
    ensures n == InName(k)
  {
    UsedIsThere(Lex(Prefix(subs, k)), true, n);
    UsedIsThere(Lex(Part(subs, k)), true, n);
    if n != InName(k) {
      PartIsNew(subs, k, n);
    }
  }

  lemma NamesGrow(subs: seq<string>, k: nat, n: Name)
    requires 0 < k < |subs| && PrefixOk(subs, k) && Proper(subs[k])
    requires Pad(n) in Lex(Prefix(subs, k)) || Pad(n) in Lex(Part(subs, k))
    ensures Earlier(n, k + 1) || n == OutName(k, |subs|)
  {
    if n == InName(k) {
      LinkIsEarlier(k - 1, k + 1);
    } else if Pad(n) in Lex(Part(subs, k)) {
      PartIsNew(subs, k, n);
    } else {
      assert Earlier(n, k) || n == InName(k);
      EarlierGrows(n, k);
    }
  }

  lemma MoreSingleUse(subs: seq<string>, k: nat)
    requires 0 < k < |subs| && PrefixOk(subs, k) && Proper(subs[k])
    ensures var u := Uses(Lex(Prefix(subs, k)), true) + Uses(Lex(Part(subs, k)), true);
      SingleUse(u, SOURCE, OutName(k, |subs|))
  {
    PartSingleUse(subs, k);
    forall n | Used(Uses(Lex(Prefix(subs, k)), true), n) && Used(Uses(Lex(Part(subs, k)), true), n)
      ensures n == InName(k)
    {
      SharedIsTheLink(subs, k, n);
    }
    OuterNames();
    TagsAndLinks(k);
    Compose(Uses(Lex(Prefix(subs, k)), true), Uses(Lex(Part(subs, k)), true), SOURCE, InName(k), OutName(k, |subs|));
  }

  lemma OneMorePart(subs: seq<string>, k: nat)
    requires 0 < k < |subs| && PrefixOk(subs, k) && Proper(subs[k])
    ensures PrefixOk(subs, k + 1)
  {
    var a, b := Lex(Prefix(subs, k)), Lex(Part(subs, k));
    LexJoined(Prefix(subs, k), Part(subs, k));
    PartTokens(subs, k);
    UsesOfParts(a, b, true);
    MoreSingleUse(subs, k);
    TidyParts(a, b);
    forall n | Pad(n) in Lex(Prefix(subs, k + 1)) ensures Earlier(n, k + 1) || n == OutName(k, |subs|) {
      PadOfParts(a, b, n);
      NamesGrow(subs, k, n);
    }
  }

  lemma TidyParts(a: seq<Token>, b: seq<Token>)
    requires Tidy(a) && Tidy(b)
    ensures Tidy(a + [Text(';')] + b)
  {
  }

  lemma PadOfParts(a: seq<Token>, b: seq<Token>, n: Name)
    requires Pad(n) in a + [Text(';')] + b
    ensures Pad(n) in a || Pad(n) in b
  {
  }

  lemma {:induction false} PrefixKeeps(subs: seq<string>, k: nat)
    requires 0 < k <= |subs| && forall i :: 0 <= i < |subs| ==> Proper(subs[i])
    ensures PrefixOk(subs, k)
  {
    if k == 1 {
      FirstPrefix(subs);
    } else {
      PrefixKeeps(subs, k - 1);
      OneMorePart(subs, k - 1);
    }
  }

  /** Chaining accents that each use every pad once gives one graph from the clip to the output that uses every pad
      once. */
  lemma ChainsKeepSingleUse(subs: seq<string>)
    requires subs != [] && forall i :: 0 <= i < |subs| ==> Proper(subs[i])
    ensures SingleUse(Uses(Lex(Prefix(subs, |subs|)), true), SOURCE, SINK)
  {
    PrefixKeeps(subs, |subs|);
  }
}
