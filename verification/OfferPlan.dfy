/**
 Which memory a capture asks mutter for (agent/modules/desktop-mutter/capture_memory.cpp:59-154): the
 import list of the encoder intersected with what mutter can allocate, grouped by format, and the
 shared-memory formats behind it.
 */
module OfferPlan {
  import opened Common

  datatype VideoFormat = Unknown | BGRx | BGRA | RGBx | RGBA | Other(id: nat)
  type Modifier = nat

  /** One format and the DMA-BUF modifiers that go with it. */
  datatype Group = Group(format: VideoFormat, modifiers: seq<Modifier>)

  datatype Import = Import(fourcc: nat, modifier: Modifier)

  /** One EnumFormat parameter of mutter's node; one that is no video format at all is not `valid`. */
  datatype Param = Param(valid: bool, formats: seq<VideoFormat>, modifiers: seq<Modifier>)

  datatype Producer = Producer(known: bool, formats: seq<Group>)

  datatype Request = Request(imports: seq<Import>, encoder: string, virtualMonitor: bool, forceShm: bool,
                             fallback: string)

  datatype Reason =
    | Offered
    | VirtualMonitor
    | Forced
    | Fallback(why: string)
    | NoImports(encoder: string)
    | NoGpu
    | NothingInCommon

  datatype Offer = Offer(dmabuf: seq<Group>, shm: seq<VideoFormat>, reason: Reason)

  type Pair = (VideoFormat, Modifier)

  const SHM_FORMATS := [BGRx, BGRA, RGBx, RGBA]

  function Fourcc(a: char, b: char, c: char, d: char): int {
    a as int + 0x100 * (b as int + 0x100 * (c as int + 0x100 * (d as int)))
  }

  function FormatOf(fourcc: nat): VideoFormat {
    if fourcc == Fourcc('X', 'R', '2', '4') then BGRx
    else if fourcc == Fourcc('A', 'R', '2', '4') then BGRA
    else if fourcc == Fourcc('X', 'B', '2', '4') then RGBx
    else if fourcc == Fourcc('A', 'B', '2', '4') then RGBA
    else Unknown
  }

  /** The four DRM formats by their numbers: XRGB8888, ARGB8888, XBGR8888 and ABGR8888; no other is known. */
  lemma FormatsByNumber(fourcc: nat)
    ensures FormatOf(fourcc) == BGRx <==> fourcc == 0x3432_5258
    ensures FormatOf(fourcc) == BGRA <==> fourcc == 0x3432_5241
    ensures FormatOf(fourcc) == RGBx <==> fourcc == 0x3432_4258
    ensures FormatOf(fourcc) == RGBA <==> fourcc == 0x3432_4241
    ensures FormatOf(fourcc) in {BGRx, BGRA, RGBx, RGBA, Unknown}
  {
    FourccNumbers();
  }

  lemma FourccNumbers()
    ensures Fourcc('X', 'R', '2', '4') == 0x3432_5258 && Fourcc('A', 'R', '2', '4') == 0x3432_5241
    ensures Fourcc('X', 'B', '2', '4') == 0x3432_4258 && Fourcc('A', 'B', '2', '4') == 0x3432_4241
  {
  }

  // ------------------------------------------------------------------ what is meant

  /** Every element once, where it first appears. */
  function Distinct<T(==)>(s: seq<T>): seq<T> {
    if s == [] then []
    else
      var before := Distinct(s[..|s| - 1]);
      if s[|s| - 1] in before then before else before + [s[|s| - 1]]
  }

  function Formats(pairs: seq<Pair>): seq<VideoFormat> {
    seq(|pairs|, i requires 0 <= i < |pairs| => pairs[i].0)
  }

  /** The modifiers paired with a format, in order. */
  function ModifiersOf(pairs: seq<Pair>, f: VideoFormat): seq<Modifier> {
    if pairs == [] then []
    else
      var last := pairs[|pairs| - 1];
      ModifiersOf(pairs[..|pairs| - 1], f) + if last.0 == f then [last.1] else []
  }

  /** One group per format of `order`, in first-appearance order, each with its modifiers in theirs. */
  function Grouped(order: seq<VideoFormat>, pairs: seq<Pair>): seq<Group> {
    var fs := Distinct(order);
    seq(|fs|, i requires 0 <= i < |fs| => GroupOf(pairs, fs[i]))
  }

  function GroupOf(pairs: seq<Pair>, f: VideoFormat): Group { Group(f, Distinct(ModifiersOf(pairs, f))) }

  /** The position of a format's group, or the number of groups. */
  function Find(groups: seq<Group>, f: VideoFormat): (i: nat)
    ensures i <= |groups| && (i < |groups| ==> groups[i].format == f)
    ensures forall j :: 0 <= j < i ==> groups[j].format != f
  {
    if groups == [] then 0 else if groups[0].format == f then 0 else 1 + Find(groups[1..], f)
  }

  predicate Makes(p: Producer, f: VideoFormat, m: Modifier) {
    !p.known || (Find(p.formats, f) < |p.formats| && m in p.formats[Find(p.formats, f)].modifiers)
  }

  predicate AnyModifier(p: Producer) {
    exists i :: 0 <= i < |p.formats| && p.formats[i].modifiers != []
  }

  /** The imports that have a known format and that mutter can make too. */
  function Accepted(imports: seq<Import>, p: Producer): seq<Pair> {
    if imports == [] then []
    else
      var last := imports[|imports| - 1];
      var f := FormatOf(last.fourcc);
      Accepted(imports[..|imports| - 1], p)
      + if f != Unknown && Makes(p, f, last.modifier) then [(f, last.modifier)] else []
  }

  /** Why DMA-BUF is not even considered, or `Offered` when it is. */
  function Barred(rq: Request, p: Producer): Reason {
    if rq.virtualMonitor then VirtualMonitor
    else if rq.forceShm then Forced
    else if rq.fallback != "" then Fallback(rq.fallback)
    else if rq.imports == [] then NoImports(rq.encoder)
    else if p.known && !AnyModifier(p) then NoGpu
    else Offered
  }

  function Planned(rq: Request, p: Producer): seq<Group> {
    if Barred(rq, p) != Offered then [] else Grouped(Formats(Accepted(rq.imports, p)), Accepted(rq.imports, p))
  }

  // ------------------------------------------------------------------ growing a list of groups

  lemma DistinctGrows<T>(s: seq<T>, x: T)
    ensures Distinct(s + [x]) == if x in Distinct(s) then Distinct(s) else Distinct(s) + [x]
  {
    assert (s + [x])[..|s|] == s;
  }

  lemma {:induction false} DistinctMembers<T>(s: seq<T>)
    ensures NoDuplicates(Distinct(s))
    ensures forall x :: x in Distinct(s) <==> x in s
  {
    if s != [] {
      DistinctMembers(s[..|s| - 1]);
      assert s == s[..|s| - 1] + [s[|s| - 1]];
    }
  }

  lemma ModifiersGrow(pairs: seq<Pair>, f: VideoFormat, m: Modifier, g: VideoFormat)
    ensures ModifiersOf(pairs + [(f, m)], g) == ModifiersOf(pairs, g) + if f == g then [m] else []
  {
    assert (pairs + [(f, m)])[..|pairs|] == pairs;
  }

  lemma {:induction false} ModifiersMembers(pairs: seq<Pair>, f: VideoFormat, m: Modifier)
    ensures m in ModifiersOf(pairs, f) <==> (f, m) in pairs
  {
    if pairs != [] {
      ModifiersMembers(pairs[..|pairs| - 1], f, m);
      assert pairs == pairs[..|pairs| - 1] + [pairs[|pairs| - 1]];
    }
  }

  lemma {:induction false} NoModifiers(pairs: seq<Pair>, f: VideoFormat)
    requires forall m :: (f, m) !in pairs
    ensures ModifiersOf(pairs, f) == []
  {
    if pairs != [] {
      assert pairs == pairs[..|pairs| - 1] + [pairs[|pairs| - 1]];
      NoModifiers(pairs[..|pairs| - 1], f);
    }
  }

  function WithModifier(g: Group, m: Modifier): Group {
    g.(modifiers := if m in g.modifiers then g.modifiers else g.modifiers + [m])
  }

  lemma GroupGrows(pairs: seq<Pair>, f: VideoFormat, m: Modifier, g: VideoFormat)
    ensures GroupOf(pairs + [(f, m)], g) == if f == g then WithModifier(GroupOf(pairs, g), m) else GroupOf(pairs, g)
  {
    ModifiersGrow(pairs, f, m, g);
    DistinctGrows(ModifiersOf(pairs, g), m);
    assert ModifiersOf(pairs, g) + [] == ModifiersOf(pairs, g);
  }

  /** A format of `order` has exactly one group, at the position `Find` finds. */
  lemma FindGrouped(order: seq<VideoFormat>, pairs: seq<Pair>, f: VideoFormat)
    ensures var g := Grouped(order, pairs);
            && (Find(g, f) < |g| <==> f in order)
            && (forall i :: 0 <= i < |g| ==> (g[i].format == f <==> i == Find(g, f)))
  {
    DistinctMembers(order);
    var g := Grouped(order, pairs);
    var fs := Distinct(order);
    if f in order {
      var k :| 0 <= k < |fs| && fs[k] == f;
      assert g[k].format == f;
    } else {
      forall i | 0 <= i < |g| ensures g[i].format in order { assert g[i].format == fs[i] && fs[i] in fs; }
    }
  }

  /** Making room for a format: its group is there already, or comes last, without modifiers so far. */
  lemma GroupedInsert(order: seq<VideoFormat>, pairs: seq<Pair>, f: VideoFormat)
    requires forall m :: (f, m) in pairs ==> f in order
    ensures Grouped(order + [f], pairs) == Grouped(order, pairs) + if f in order then [] else [Group(f, [])]
  {
    DistinctGrows(order, f);
    DistinctMembers(order);
    if f !in order { NoModifiers(pairs, f); }
  }

  /** One more modifier for a format that has a group. */
  lemma GroupedAdd(order: seq<VideoFormat>, pairs: seq<Pair>, f: VideoFormat, m: Modifier)
    requires f in order
    ensures var g := Grouped(order, pairs);
            var at := Find(g, f);
            at < |g| && Grouped(order, pairs + [(f, m)]) == g[at := WithModifier(g[at], m)]
  {
    FindGrouped(order, pairs, f);
    forall h
      ensures GroupOf(pairs + [(f, m)], h) == if f == h then WithModifier(GroupOf(pairs, h), m) else GroupOf(pairs, h)
    {
      GroupGrows(pairs, f, m, h);
    }
  }

  // ------------------------------------------------------------------ the planner

  method AppendNew<T(==)>(s: seq<T>, x: T) returns (r: seq<T>)
    ensures r == if x in s then s else s + [x]
  {
    if x in s { return s; }
    return s + [x];
  }

  method Unique<T(==)>(s: seq<T>) returns (r: seq<T>)
    ensures r == Distinct(s)
  {
    r := [];
    for i := 0 to |s|
      invariant r == Distinct(s[..i])
    {
      assert s[..i + 1][..i] == s[..i];
      r := AppendNew(r, s[i]);
    }
    assert s[..|s|] == s;
  }

  method EnsureGroup(groups: seq<Group>, f: VideoFormat, ghost order: seq<VideoFormat>, ghost pairs: seq<Pair>)
    returns (r: seq<Group>)
    requires groups == Grouped(order, pairs) && forall n :: (f, n) in pairs ==> f in order
    ensures r == Grouped(order + [f], pairs)
  {
    GroupedInsert(order, pairs, f);
    FindGrouped(order, pairs, f);
    r := groups;
    if Find(r, f) == |r| { r := r + [Group(f, [])]; }
  }

  method AddModifier(groups: seq<Group>, f: VideoFormat, m: Modifier, ghost order: seq<VideoFormat>,
                     ghost pairs: seq<Pair>)
    returns (r: seq<Group>)
    requires groups == Grouped(order, pairs) && f in order
    ensures r == Grouped(order, pairs + [(f, m)])
  {
    FindGrouped(order, pairs, f);
    GroupedAdd(order, pairs, f, m);
    var at := Find(groups, f);
    var mods := AppendNew(groups[at].modifiers, m);
    r := groups[at := groups[at].(modifiers := mods)];
  }

  lemma PairedFormats(pairs: seq<Pair>, f: VideoFormat, m: Modifier)
    ensures (f, m) in pairs ==> f in Formats(pairs)
    ensures Formats(pairs + [(f, m)]) == Formats(pairs) + [f]
  {
    if (f, m) in pairs {
      var k :| 0 <= k < |pairs| && pairs[k] == (f, m);
      assert Formats(pairs)[k] == f;
    }
  }

  method PlanDmabuf(imports: seq<Import>, p: Producer) returns (dmabuf: seq<Group>)
    ensures dmabuf == Grouped(Formats(Accepted(imports, p)), Accepted(imports, p))
  {
    dmabuf := [];
    for i := 0 to |imports|
      invariant dmabuf == Grouped(Formats(Accepted(imports[..i], p)), Accepted(imports[..i], p))
    {
      assert imports[..i + 1][..i] == imports[..i];
      var f, m := FormatOf(imports[i].fourcc), imports[i].modifier;
      ghost var pairs := Accepted(imports[..i], p);
      if f != Unknown && Makes(p, f, m) {
        forall n { PairedFormats(pairs, f, n); }
        dmabuf := EnsureGroup(dmabuf, f, Formats(pairs), pairs);
        dmabuf := AddModifier(dmabuf, f, m, Formats(pairs) + [f], pairs);
      } else {
        assert pairs + [] == pairs;
      }
    }
    assert imports[..|imports|] == imports;
  }

  method FormatsOf(dmabuf: seq<Group>) returns (r: seq<VideoFormat>)
    ensures |r| == |dmabuf| && forall i :: 0 <= i < |dmabuf| ==> r[i] == dmabuf[i].format
  {
    r := [];
    for i := 0 to |dmabuf|
      invariant |r| == i && forall j :: 0 <= j < i ==> r[j] == dmabuf[j].format
    {
      r := r + [dmabuf[i].format];
    }
  }

  method PlanShm(dmabuf: seq<Group>) returns (shm: seq<VideoFormat>)
    requires forall i :: 0 <= i < |dmabuf| ==> dmabuf[i].format in SHM_FORMATS
    requires forall i, j :: 0 <= i < j < |dmabuf| ==> dmabuf[i].format != dmabuf[j].format
    ensures multiset(shm) == multiset(SHM_FORMATS)
    ensures |dmabuf| <= |shm| && forall i :: 0 <= i < |dmabuf| ==> shm[i] == dmabuf[i].format
  {
    shm := FormatsOf(dmabuf);
    for i := 0 to 4
      invariant |dmabuf| <= |shm| && forall j :: 0 <= j < |dmabuf| ==> shm[j] == dmabuf[j].format
      invariant NoDuplicates(shm) && forall f :: f in shm ==> f in SHM_FORMATS
      invariant forall j :: 0 <= j < i ==> SHM_FORMATS[j] in shm
    {
      if SHM_FORMATS[i] !in shm { shm := shm + [SHM_FORMATS[i]]; }
    }
    SameElementsOnce(shm, SHM_FORMATS);
  }

  lemma {:induction false} CountOnce<T>(s: seq<T>, x: T)
    requires NoDuplicates(s)
    ensures multiset(s)[x] == if x in s then 1 else 0
  {
    if s != [] {
      CountOnce(s[..|s| - 1], x);
      assert s == s[..|s| - 1] + [s[|s| - 1]];
    }
  }

  lemma SameElementsOnce<T>(s: seq<T>, t: seq<T>)
    requires NoDuplicates(s) && NoDuplicates(t) && forall x :: x in s <==> x in t
    ensures multiset(s) == multiset(t)
  {
    forall x ensures multiset(s)[x] == multiset(t)[x] {
      CountOnce(s, x);
      CountOnce(t, x);
    }
  }

  lemma {:induction false} AcceptedFormats(imports: seq<Import>, p: Producer)
    ensures forall i :: 0 <= i < |Accepted(imports, p)| ==> Accepted(imports, p)[i].0 in SHM_FORMATS
  {
    if imports != [] { AcceptedFormats(imports[..|imports| - 1], p); }
  }

  lemma PlannedFormats(rq: Request, p: Producer)
    ensures var d := Planned(rq, p);
            && (forall i :: 0 <= i < |d| ==> d[i].format in SHM_FORMATS)
            && (forall i, j :: 0 <= i < j < |d| ==> d[i].format != d[j].format)
  {
    var pairs := Accepted(rq.imports, p);
    AcceptedFormats(rq.imports, p);
    DistinctMembers(Formats(pairs));
    forall i | 0 <= i < |Distinct(Formats(pairs))| ensures Distinct(Formats(pairs))[i] in SHM_FORMATS {
      assert Distinct(Formats(pairs))[i] in Formats(pairs);
    }
  }

  method PlanOffer(rq: Request, p: Producer) returns (o: Offer)
    ensures o.dmabuf == Planned(rq, p)
    ensures o.reason == if Barred(rq, p) == Offered && o.dmabuf == [] then NothingInCommon else Barred(rq, p)
    ensures o.reason == Offered <==> o.dmabuf != []
    ensures multiset(o.shm) == multiset(SHM_FORMATS)
    ensures |o.dmabuf| <= |o.shm| && forall i :: 0 <= i < |o.dmabuf| ==> o.shm[i] == o.dmabuf[i].format
  {
    var reason := Barred(rq, p);
    var dmabuf: seq<Group> := [];
    if reason == Offered {
      dmabuf := PlanDmabuf(rq.imports, p);
      if dmabuf == [] { reason := NothingInCommon; }
    }
    assert dmabuf == Planned(rq, p);
    PlannedFormats(rq, p);
    var shm := PlanShm(dmabuf);
    o := Offer(dmabuf, shm, reason);
  }

  // ------------------------------------------------------------------ what mutter offers

  function Row(f: VideoFormat, ms: seq<Modifier>): seq<Pair> {
    seq(|ms|, i requires 0 <= i < |ms| => (f, ms[i]))
  }

  function Cross(fs: seq<VideoFormat>, ms: seq<Modifier>): seq<Pair> {
    if fs == [] then [] else Cross(fs[..|fs| - 1], ms) + Row(fs[|fs| - 1], ms)
  }

  /** The formats of all parameters in turn, and their pairings with the modifiers of the same parameter. */
  function OfferedFormats(params: seq<Param>): seq<VideoFormat> {
    if params == [] then []
    else
      var last := params[|params| - 1];
      OfferedFormats(params[..|params| - 1]) + if last.valid then Distinct(last.formats) else []
  }

  function OfferedPairs(params: seq<Param>): seq<Pair> {
    if params == [] then []
    else
      var last := params[|params| - 1];
      OfferedPairs(params[..|params| - 1])
        + if last.valid then Cross(Distinct(last.formats), Distinct(last.modifiers)) else []
  }

  ghost predicate OffersPair(params: seq<Param>, f: VideoFormat, m: Modifier) {
    exists k :: 0 <= k < |params| && params[k].valid && f in params[k].formats && m in params[k].modifiers
  }

  lemma {:induction false} CrossMembers(fs: seq<VideoFormat>, ms: seq<Modifier>, f: VideoFormat, m: Modifier)
    ensures (f, m) in Cross(fs, ms) <==> f in fs && m in ms
  {
    if fs != [] {
      CrossMembers(fs[..|fs| - 1], ms, f, m);
      assert fs == fs[..|fs| - 1] + [fs[|fs| - 1]];
      if m in ms {
        var k :| 0 <= k < |ms| && ms[k] == m;
        assert Row(fs[|fs| - 1], ms)[k] == (fs[|fs| - 1], m);
      }
    }
  }

  lemma {:induction false} OfferedMembers(params: seq<Param>, f: VideoFormat, m: Modifier)
    ensures (f, m) in OfferedPairs(params) <==> OffersPair(params, f, m)
    ensures (f, m) in OfferedPairs(params) ==> f in OfferedFormats(params)
  {
    if params != [] {
      var init, last := params[..|params| - 1], params[|params| - 1];
      OfferedMembers(init, f, m);
      CrossMembers(Distinct(last.formats), Distinct(last.modifiers), f, m);
      DistinctMembers(last.formats);
      DistinctMembers(last.modifiers);
      OffersStep(params, f, m);
    }
  }

  lemma OffersStep(params: seq<Param>, f: VideoFormat, m: Modifier)
    requires params != []
    ensures var last := params[|params| - 1];
            OffersPair(params, f, m)
            <==> OffersPair(params[..|params| - 1], f, m) || (last.valid && f in last.formats && m in last.modifiers)
  {
    var init, last := params[..|params| - 1], params[|params| - 1];
    if OffersPair(init, f, m) {
      var k :| 0 <= k < |init| && init[k].valid && f in init[k].formats && m in init[k].modifiers;
      assert params[k] == init[k];
    }
    if OffersPair(params, f, m) && !(last.valid && f in last.formats && m in last.modifiers) {
      var k :| 0 <= k < |params| && params[k].valid && f in params[k].formats && m in params[k].modifiers;
      assert init[k] == params[k];
    }
  }

  method AddRow(groups: seq<Group>, f: VideoFormat, ms: seq<Modifier>, ghost order: seq<VideoFormat>,
                ghost pairs: seq<Pair>)
    returns (r: seq<Group>)
    requires groups == Grouped(order, pairs) && forall n :: (f, n) in pairs ==> f in order
    ensures r == Grouped(order + [f], pairs + Row(f, ms))
  {
    r := EnsureGroup(groups, f, order, pairs);
    assert Row(f, ms)[..0] == [] && pairs + [] == pairs;
    for i := 0 to |ms|
      invariant r == Grouped(order + [f], pairs + Row(f, ms)[..i])
    {
      r := AddModifier(r, f, ms[i], order + [f], pairs + Row(f, ms)[..i]);
      assert pairs + Row(f, ms)[..i] + [(f, ms[i])] == pairs + Row(f, ms)[..i + 1];
    }
    assert Row(f, ms)[..|ms|] == Row(f, ms);
  }

  lemma PairsHaveFormats(params: seq<Param>, fs: seq<VideoFormat>, ms: seq<Modifier>, f: VideoFormat)
    ensures forall n :: (f, n) in OfferedPairs(params) + Cross(fs, ms) ==> f in OfferedFormats(params) + fs
  {
    forall n | (f, n) in OfferedPairs(params) + Cross(fs, ms) ensures f in OfferedFormats(params) + fs {
      OfferedMembers(params, f, n);
      CrossMembers(fs, ms, f, n);
    }
  }

  method AddParam(groups: seq<Group>, param: Param, ghost before: seq<Param>) returns (r: seq<Group>)
    requires groups == Grouped(OfferedFormats(before), OfferedPairs(before)) && param.valid
    ensures r == Grouped(OfferedFormats(before + [param]), OfferedPairs(before + [param]))
  {
    assert (before + [param])[..|before|] == before;
    var fs := Unique(param.formats);
    var ms := Unique(param.modifiers);
    ghost var order, pairs := OfferedFormats(before), OfferedPairs(before);
    r := groups;
    assert order + fs[..0] == order && pairs + Cross(fs[..0], ms) == pairs;
    for i := 0 to |fs|
      invariant r == Grouped(order + fs[..i], pairs + Cross(fs[..i], ms))
    {
      assert fs[..i + 1][..i] == fs[..i];
      PairsHaveFormats(before, fs[..i], ms, fs[i]);
      r := AddRow(r, fs[i], ms, order + fs[..i], pairs + Cross(fs[..i], ms));
      assert order + fs[..i] + [fs[i]] == order + fs[..i + 1];
      assert pairs + Cross(fs[..i], ms) + Row(fs[i], ms) == pairs + Cross(fs[..i + 1], ms);
    }
    assert fs[..|fs|] == fs;
  }

  method ParseProducerFormats(params: seq<Param>) returns (p: Producer)
    ensures p == Producer(true, Grouped(OfferedFormats(params), OfferedPairs(params)))
  {
    var groups: seq<Group> := [];
    for i := 0 to |params|
      invariant groups == Grouped(OfferedFormats(params[..i]), OfferedPairs(params[..i]))
    {
      assert params[..i + 1] == params[..i] + [params[i]];
      if params[i].valid {
        groups := AddParam(groups, params[i], params[..i]);
      } else {
        assert params[..i + 1][..i] == params[..i];
        assert OfferedFormats(params[..i]) + [] == OfferedFormats(params[..i]);
        assert OfferedPairs(params[..i]) + [] == OfferedPairs(params[..i]);
      }
    }
    assert params[..|params|] == params;
    return Producer(true, groups);
  }

  // ------------------------------------------------------------------ what is offered

  ghost predicate OffersGroup(groups: seq<Group>, f: VideoFormat, m: Modifier) {
    exists i :: 0 <= i < |groups| && groups[i].format == f && m in groups[i].modifiers
  }

  lemma GroupedMembers(order: seq<VideoFormat>, pairs: seq<Pair>, f: VideoFormat, m: Modifier)
    ensures OffersGroup(Grouped(order, pairs), f, m) <==> f in order && (f, m) in pairs
    ensures Makes(Producer(true, Grouped(order, pairs)), f, m) <==> f in order && (f, m) in pairs
  {
    var g := Grouped(order, pairs);
    FindGrouped(order, pairs, f);
    ModifiersMembers(pairs, f, m);
    DistinctMembers(ModifiersOf(pairs, f));
    if f in order { assert g[Find(g, f)] == GroupOf(pairs, f); }
  }

  /** What mutter was read to make is what some parameter of its node said. */
  lemma ParsedMakes(params: seq<Param>, f: VideoFormat, m: Modifier)
    ensures Makes(Producer(true, Grouped(OfferedFormats(params), OfferedPairs(params))), f, m)
            <==> OffersPair(params, f, m)
  {
    GroupedMembers(OfferedFormats(params), OfferedPairs(params), f, m);
    OfferedMembers(params, f, m);
  }

  lemma {:induction false} AcceptedMembers(imports: seq<Import>, p: Producer, f: VideoFormat, m: Modifier)
    ensures (f, m) in Accepted(imports, p) <==>
            && f != Unknown && Makes(p, f, m)
            && exists i :: 0 <= i < |imports| && FormatOf(imports[i].fourcc) == f && imports[i].modifier == m
  {
    if imports != [] {
      var init := imports[..|imports| - 1];
      AcceptedMembers(init, p, f, m);
      assert forall i :: 0 <= i < |init| ==> init[i] == imports[i];
    }
  }

  /** DMA-BUF is offered for exactly the imported pairs mutter's parameters have too. */
  lemma OfferedIffImportedAndMade(rq: Request, params: seq<Param>, f: VideoFormat, m: Modifier)
    ensures var p := Producer(true, Grouped(OfferedFormats(params), OfferedPairs(params)));
            OffersGroup(Planned(rq, p), f, m) <==>
            && Barred(rq, p) == Offered && f != Unknown && OffersPair(params, f, m)
            && exists i :: 0 <= i < |rq.imports| && FormatOf(rq.imports[i].fourcc) == f && rq.imports[i].modifier == m
  {
    var p := Producer(true, Grouped(OfferedFormats(params), OfferedPairs(params)));
    var pairs := Accepted(rq.imports, p);
    GroupedMembers(Formats(pairs), pairs, f, m);
    PairedFormats(pairs, f, m);
    AcceptedMembers(rq.imports, p, f, m);
    ParsedMakes(params, f, m);
  }

  function FirstIndex<T(==)>(s: seq<T>, x: T): nat {
    if s == [] || s[0] == x then 0 else 1 + FirstIndex(s[1..], x)
  }

  lemma {:induction false} FirstIndexGrows<T>(s: seq<T>, x: T, y: T)
    ensures x in s ==> FirstIndex(s + [y], x) == FirstIndex(s, x) < |s|
    ensures x !in s ==> FirstIndex(s, x) == |s| && FirstIndex(s + [x], x) == |s|
  {
    if s != [] {
      FirstIndexGrows(s[1..], x, y);
      assert (s + [y])[1..] == s[1..] + [y] && (s + [x])[1..] == s[1..] + [x];
    }
  }

  ghost predicate InFirstOrder<T>(d: seq<T>, s: seq<T>) {
    forall i, j :: 0 <= i < j < |d| ==> FirstIndex(s, d[i]) < FirstIndex(s, d[j])
  }

  /** `Distinct` keeps the order of first appearance. */
  lemma {:induction false} DistinctInOrder<T>(s: seq<T>)
    ensures InFirstOrder(Distinct(s), s)
  {
    if s != [] {
      var init, y := s[..|s| - 1], s[|s| - 1];
      assert s == init + [y];
      DistinctInOrder(init);
      DistinctMembers(init);
      var d := Distinct(s);
      forall i, j | 0 <= i < j < |d| ensures FirstIndex(s, d[i]) < FirstIndex(s, d[j]) {
        FirstIndexGrows(init, d[i], y);
        FirstIndexGrows(init, d[j], y);
        var e := Distinct(init);
        assert d[i] == e[i] && e[i] in e;
        if j < |e| {
          assert d[j] == e[j] && e[j] in e;
          assert FirstIndex(init, e[i]) < FirstIndex(init, e[j]);
        } else {
          assert d[j] == y && y !in init;
          assert FirstIndex(init + [y], y) == |init|;
        }
        assert FirstIndex(init + [y], d[i]) == FirstIndex(init, d[i]);
        assert FirstIndex(init + [y], d[i]) < FirstIndex(init + [y], d[j]);
        assert FirstIndex(s, d[i]) == FirstIndex(init + [y], d[i]);
      }
    }
  }

  lemma GroupShape(pairs: seq<Pair>, f: VideoFormat)
    requires f in Formats(pairs)
    ensures GroupOf(pairs, f).modifiers != [] && NoDuplicates(GroupOf(pairs, f).modifiers)
    ensures InFirstOrder(GroupOf(pairs, f).modifiers, ModifiersOf(pairs, f))
  {
    var k :| 0 <= k < |pairs| && pairs[k].0 == f;
    ModifiersMembers(pairs, f, pairs[k].1);
    DistinctMembers(ModifiersOf(pairs, f));
    DistinctInOrder(ModifiersOf(pairs, f));
  }

  /** Groups and modifiers come in the import list's order, once each, and no group is empty. */
  lemma PlannedShape(rq: Request, p: Producer)
    requires Barred(rq, p) == Offered
    ensures var d := Planned(rq, p);
            var pairs := Accepted(rq.imports, p);
            && |d| == |Distinct(Formats(pairs))|
            && (forall i :: 0 <= i < |d| ==> d[i].format == Distinct(Formats(pairs))[i])
            && InFirstOrder(Distinct(Formats(pairs)), Formats(pairs))
            && forall i :: 0 <= i < |d| ==>
                 && d[i].modifiers != [] && NoDuplicates(d[i].modifiers)
                 && InFirstOrder(d[i].modifiers, ModifiersOf(pairs, d[i].format))
  {
    var d := Planned(rq, p);
    var pairs := Accepted(rq.imports, p);
    var fs := Distinct(Formats(pairs));
    DistinctInOrder(Formats(pairs));
    DistinctMembers(Formats(pairs));
    forall i | 0 <= i < |d|
      ensures d[i].modifiers != [] && NoDuplicates(d[i].modifiers)
              && InFirstOrder(d[i].modifiers, ModifiersOf(pairs, d[i].format))
    {
      assert d[i] == GroupOf(pairs, fs[i]) && fs[i] in Formats(pairs);
      GroupShape(pairs, fs[i]);
    }
  }
}
