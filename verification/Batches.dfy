/** Laws of whole update batches: splitting, failing part-way, and interleaving between devices. */
module Batches {
  import opened Model
  import opened RuntimeSpec
  import opened Attributes
  import opened Ownership

  // ----- Splitting a batch, and failing part-way -----

  lemma {:induction false} ApplyAllConcat(c: Context, scenes: map<Uuid, Scene>, us: seq<AttributeUpdate>,
                                          vs: seq<AttributeUpdate>)
    ensures var o := ApplyAll(c, scenes, us);
            ApplyAll(c, scenes, us + vs)
              == if o.result.Err? then o else After(o.result.value, ApplyAll(c, o.scenes, vs))
    decreases us
  {
    if us == [] {
      assert us + vs == vs;
      AfterNothing(ApplyAll(c, scenes, vs));
    } else {
      assert (us + vs)[1..] == us[1..] + vs;
      var first := ApplyOne(c, scenes, us[0]);
      if first.result.Ok? {
        ApplyAllConcat(c, first.scenes, us[1..], vs);
        var rest := ApplyAll(c, first.scenes, us[1..]);
        if rest.result.Ok? { AfterTwice(first.result.value, rest.result.value, ApplyAll(c, rest.scenes, vs)); }
      }
    }
  }

  lemma BeatenTwice(ms: seq<Mapping>, d: Uuid, now: nat)
    ensures Beaten(Beaten(ms, d, now), d, now) == Beaten(ms, d, now)
  {
  }

  /** Outside Idle, us ++ vs is us and then vs at the same time, save for one tick count. */
  lemma BatchSplit(s: Runtime, d: Uuid, us: seq<AttributeUpdate>, vs: seq<AttributeUpdate>, now: nat)
    requires s.mode != Idle
    ensures var whole, first := ApplyUpdates(s, d, us + vs, now), ApplyUpdates(s, d, us, now);
            var second := ApplyUpdates(first.0, d, vs, now);
            if first.1.Err? then whole == first
            else && second.0 == whole.0.(tickCount := whole.0.tickCount + 1)
                 && whole.1 == if second.1.Ok? then Ok(first.1.value + second.1.value) else second.1
  {
    BeatenTwice(s.mappings, d, now);
    if s.activeScene.Some? {
      var c := Context(Beaten(s.mappings, d, now), s.activeScene.value, d, s.root);
      ApplyAllConcat(c, s.scenes, us, vs);
    }
  }

  /** The index at which a failing batch fails: the updates before it went through, this one did not. */
  lemma {:induction false} FirstFailure(c: Context, scenes: map<Uuid, Scene>, us: seq<AttributeUpdate>) returns (i: nat)
    requires ApplyAll(c, scenes, us).result.Err?
    ensures i < |us| && ApplyAll(c, scenes, us[..i]).result.Ok?
    ensures var done := ApplyAll(c, scenes, us[..i]).scenes;
            ApplyAll(c, scenes, us) == ApplyOne(c, done, us[i]) && ApplyAll(c, scenes, us).scenes == done
    decreases us
  {
    var first := ApplyOne(c, scenes, us[0]);
    if first.result.Err? {
      i := 0;
    } else {
      var k := FirstFailure(c, first.scenes, us[1..]);
      i := k + 1;
      assert us[..i][1..] == us[1..][..k];
    }
  }

  lemma FailsAlone(c: Context, scenes: map<Uuid, Scene>, u: AttributeUpdate)
    requires ApplyOne(c, scenes, u).result.Err?
    ensures ApplyAll(c, scenes, [u]) == ApplyOne(c, scenes, u)
  {
  }

  /** A batch failing at index i leaves exactly the effect of its first i updates, uncounted. */
  lemma PrefixFailure(s: Runtime, d: Uuid, us: seq<AttributeUpdate>, now: nat) returns (i: nat)
    requires s.mode != Idle && s.activeScene.Some? && ApplyUpdates(s, d, us, now).1.Err?
    ensures i < |us|
    ensures var prefix := ApplyUpdates(s, d, us[..i], now);
            && prefix.1.Ok?
            && ApplyUpdates(s, d, us, now).0 == prefix.0.(tickCount := s.tickCount)
            && ApplyUpdates(s, d, us[..i + 1], now).1 == ApplyUpdates(s, d, us, now).1
  {
    var c := Context(Beaten(s.mappings, d, now), s.activeScene.value, d, s.root);
    i := FirstFailure(c, s.scenes, us);
    assert us[..i + 1] == us[..i] + [us[i]];
    ApplyAllConcat(c, s.scenes, us[..i], [us[i]]);
    FailsAlone(c, ApplyAll(c, s.scenes, us[..i]).scenes, us[i]);
  }

  /** Some Active mapping of the batch's device has this target. */
  ghost predicate Targets(c: Context, a: Address) {
    exists i :: 0 <= i < |c.mappings| && OwnedBy(c.mappings[i], c.device) && c.mappings[i].target == a
  }

  /** A batch moves nothing but the current values of its device's targets in the active scene. */
  lemma {:induction false} BatchFrame(c: Context, scenes: map<Uuid, Scene>, us: seq<AttributeUpdate>, a: Address)
    ensures var before, after := GetAttr(scenes, a), GetAttr(ApplyAll(c, scenes, us).scenes, a);
            && (before.Err? ==> after == before)
            && (before.Ok? ==> after.Ok? && after.value == before.value.(current := after.value.current))
            && (!Targets(c, a) ==> after == before)
    decreases us
  {
    if us != [] {
      var i := RouteOf(c.mappings, c.scene, c.device, us[0].output);
      if i < |c.mappings| { FeedFrame(c.root, scenes, c.mappings[i].target, c.mappings[i].mask, us[0].value, a); }
      var first := ApplyOne(c, scenes, us[0]);
      if first.result.Ok? { BatchFrame(c, first.scenes, us[1..], a); }
    }
  }

  // ----- Two devices: one update against one -----

  lemma FeedsCommute(root: real -> real, scenes: map<Uuid, Scene>, a: Address, ma: Mask, v: AttributeValue, b: Address,
                     mb: Mask, w: AttributeValue)
    requires a != b
    ensures var x, y := Feed(root, scenes, a, ma, v), Feed(root, scenes, b, mb, w);
            && Feed(root, x.scenes, b, mb, w).result == y.result
            && Feed(root, y.scenes, a, ma, v).result == x.result
            && Feed(root, x.scenes, b, mb, w).scenes == Feed(root, y.scenes, a, ma, v).scenes
  {
    FeedFrame(root, scenes, a, ma, v, b);
    FeedFrame(root, scenes, b, mb, w, a);
    var x, y := Writes(root, scenes, a, ma, v), Writes(root, scenes, b, mb, w);
    FeedIsWrite(root, scenes, a, ma, v);
    FeedIsWrite(root, scenes, b, mb, w);
    if x.Some? && y.Some? {
      PutPut(scenes, a, x.value, b, y.value);
    }
  }

  /** The attribute an update leaves at its target, when it writes one. */
  function Writes(root: real -> real, scenes: map<Uuid, Scene>, a: Address, mask: Mask,
                  v: AttributeValue): Option<SceneAttribute>
  {
    if GetAttr(scenes, a).Err? then None
    else
      var attr := GetAttr(scenes, a).value;
      var next := UpdateValue(root, attr, v, mask);
      if attr.live && next.Ok? then Some(attr.(current := next.value)) else None
  }

  lemma FeedIsWrite(root: real -> real, scenes: map<Uuid, Scene>, a: Address, mask: Mask, v: AttributeValue)
    ensures var w := Writes(root, scenes, a, mask, v);
            Feed(root, scenes, a, mask, v).scenes == if w.Some? then PutAttr(scenes, a, w.value) else scenes
  {
  }

  /** The devices of the two contexts own no target in common. */
  ghost predicate Apart(c: Context, e: Context) {
    && c.root == e.root
    && forall i, j ::
         && 0 <= i < |c.mappings| && OwnedBy(c.mappings[i], c.device)
         && 0 <= j < |e.mappings| && OwnedBy(e.mappings[j], e.device)
         ==> c.mappings[i].target != e.mappings[j].target
  }

  /** Running x and y from the same scenes, in either order, gives the same scenes and results. */
  ghost predicate Diamond(x: Outcome, y: Outcome, xy: Outcome, yx: Outcome) {
    xy.result == y.result && yx.result == x.result && xy.scenes == yx.scenes
  }

  lemma OnesCommute(c: Context, e: Context, scenes: map<Uuid, Scene>, u: AttributeUpdate, v: AttributeUpdate)
    requires Apart(c, e)
    ensures var x, y := ApplyOne(c, scenes, u), ApplyOne(e, scenes, v);
            Diamond(x, y, ApplyOne(e, x.scenes, v), ApplyOne(c, y.scenes, u))
  {
    var i, j := RouteOf(c.mappings, c.scene, c.device, u.output), RouteOf(e.mappings, e.scene, e.device, v.output);
    if i < |c.mappings| && j < |e.mappings| {
      var m, n := c.mappings[i], e.mappings[j];
      FeedsCommute(c.root, scenes, m.target, m.mask, u.value, n.target, n.mask, v.value);
    }
  }

  lemma {:induction false} AllCommutesOne(c: Context, e: Context, scenes: map<Uuid, Scene>, us: seq<AttributeUpdate>,
                                          v: AttributeUpdate)
    requires Apart(c, e)
    ensures var x, y := ApplyAll(c, scenes, us), ApplyOne(e, scenes, v);
            Diamond(x, y, ApplyOne(e, x.scenes, v), ApplyAll(c, y.scenes, us))
    decreases us
  {
    if us != [] {
      OnesCommute(c, e, scenes, us[0], v);
      var first := ApplyOne(c, scenes, us[0]);
      if first.result.Ok? { AllCommutesOne(c, e, first.scenes, us[1..], v); }
    }
  }

  lemma {:induction false} AllCommute(c: Context, e: Context, scenes: map<Uuid, Scene>, us: seq<AttributeUpdate>,
                                      vs: seq<AttributeUpdate>)
    requires Apart(c, e)
    ensures var x, y := ApplyAll(c, scenes, us), ApplyAll(e, scenes, vs);
            Diamond(x, y, ApplyAll(e, x.scenes, vs), ApplyAll(c, y.scenes, us))
    decreases vs
  {
    if vs != [] {
      AllCommutesOne(c, e, scenes, us, vs[0]);
      var first := ApplyOne(e, scenes, vs[0]);
      if first.result.Ok? { AllCommute(c, e, first.scenes, us, vs[1..]); }
    }
  }

  // ----- Two devices: whole batches -----

  lemma RouteIgnoresLease(ms: seq<Mapping>, other: Uuid, now: nat, scene: Uuid, d: Uuid, output: string)
    ensures RouteOf(Beaten(ms, other, now), scene, d, output) == RouteOf(ms, scene, d, output)
  {
    var i, j := RouteOf(ms, scene, d, output), RouteOf(Beaten(ms, other, now), scene, d, output);
    assert forall k :: 0 <= k < |ms| ==>
           Routes(Beaten(ms, other, now)[k], scene, d, output) == Routes(ms[k], scene, d, output);
  }

  lemma {:induction false} ApplyIgnoresLease(c: Context, other: Uuid, now: nat, scenes: map<Uuid, Scene>,
                                             us: seq<AttributeUpdate>)
    ensures ApplyAll(c.(mappings := Beaten(c.mappings, other, now)), scenes, us) == ApplyAll(c, scenes, us)
    decreases us
  {
    if us != [] {
      RouteIgnoresLease(c.mappings, other, now, c.scene, c.device, us[0].output);
      var first := ApplyOne(c, scenes, us[0]);
      if first.result.Ok? { ApplyIgnoresLease(c, other, now, first.scenes, us[1..]); }
    }
  }

  lemma BeatenCommute(ms: seq<Mapping>, d: Uuid, t: nat, e: Uuid, u: nat)
    requires d != e
    ensures Beaten(Beaten(ms, d, t), e, u) == Beaten(Beaten(ms, e, u), d, t)
  {
  }

  predicate Rivals(m: Mapping, n: Mapping) {
    m.state == Active && n.state == Active && m.sourceDevice != n.sourceDevice
  }

  /** Active mappings of different devices have different targets; one device may have several on one. */
  ghost predicate DevicesApart(ms: seq<Mapping>) {
    forall i, j :: 0 <= i < |ms| && 0 <= j < |ms| && Rivals(ms[i], ms[j]) ==> ms[i].target != ms[j].target
  }

  lemma ExclusiveApart(ms: seq<Mapping>)
    requires Exclusive(ms)
    ensures DevicesApart(ms)
  {
    forall i, j | 0 <= i < |ms| && 0 <= j < |ms| && Rivals(ms[i], ms[j])
      ensures ms[i].target != ms[j].target
    {
      assert i != j;
    }
  }

  lemma BatchesCommute(s: Runtime, d: Uuid, us: seq<AttributeUpdate>, t: nat, e: Uuid, vs: seq<AttributeUpdate>, u: nat)
    requires d != e && DevicesApart(s.mappings)
    ensures var x, y := ApplyUpdates(s, d, us, t), ApplyUpdates(s, e, vs, u);
            var xy, yx := ApplyUpdates(x.0, e, vs, u), ApplyUpdates(y.0, d, us, t);
            xy.0 == yx.0 && xy.1 == y.1 && yx.1 == x.1
  {
    BeatenCommute(s.mappings, d, t, e, u);
    if s.mode != Idle && s.activeScene.Some? {
      var c := Context(s.mappings, s.activeScene.value, d, s.root);
      var k := Context(s.mappings, s.activeScene.value, e, s.root);
      var md, me := Beaten(s.mappings, d, t), Beaten(s.mappings, e, u);
      assert Apart(c, k);
      AllCommute(c, k, s.scenes, us, vs);
      var x, y := ApplyAll(c, s.scenes, us), ApplyAll(k, s.scenes, vs);
      ApplyIgnoresLease(c, d, t, s.scenes, us);
      ApplyIgnoresLease(k, e, u, s.scenes, vs);
      ApplyIgnoresLease(c, e, u, y.scenes, us);
      ApplyIgnoresLease(c.(mappings := me), d, t, y.scenes, us);
      ApplyIgnoresLease(k, d, t, x.scenes, vs);
      ApplyIgnoresLease(k.(mappings := md), e, u, x.scenes, vs);
    }
  }

  // ----- Interleavings -----

  datatype Batch = Batch(device: Uuid, updates: seq<AttributeUpdate>, now: nat)

  function ApplyBatch(s: Runtime, b: Batch): (Runtime, Result<Applied, CoreError>) {
    ApplyUpdates(s, b.device, b.updates, b.now)
  }

  function RunBatches(s: Runtime, bs: seq<Batch>): Runtime
    decreases bs
  {
    if bs == [] then s else RunBatches(ApplyBatch(s, bs[0]).0, bs[1..])
  }

  /** What device d is answered along the way. */
  function Answers(s: Runtime, bs: seq<Batch>, d: Uuid): seq<Result<Applied, CoreError>>
    decreases bs
  {
    if bs == [] then []
    else (if bs[0].device == d then [ApplyBatch(s, bs[0]).1] else []) + Answers(ApplyBatch(s, bs[0]).0, bs[1..], d)
  }

  /** The batches of one device, in order. */
  function Of(bs: seq<Batch>, d: Uuid): seq<Batch>
    decreases bs
  {
    if bs == [] then [] else (if bs[0].device == d then [bs[0]] else []) + Of(bs[1..], d)
  }

  lemma BatchKeepsApart(s: Runtime, b: Batch)
    requires DevicesApart(s.mappings)
    ensures DevicesApart(ApplyBatch(s, b).0.mappings)
  {
  }

  lemma RunTwo(s: Runtime, p: Batch, x: Batch, rest: seq<Batch>, d: Uuid)
    ensures var s1 := ApplyBatch(s, p).0;
            var s2 := ApplyBatch(s1, x).0;
            && RunBatches(s, [p, x] + rest) == RunBatches(s2, rest)
            && Answers(s, [p, x] + rest, d) ==
               (if p.device == d then [ApplyBatch(s, p).1] else [])
                 + ((if x.device == d then [ApplyBatch(s1, x).1] else []) + Answers(s2, rest, d))
  {
    assert ([p, x] + rest)[1..] == [x] + rest && ([x] + rest)[1..] == rest;
    var s1 := ApplyBatch(s, p).0;
    assert RunBatches(s1, [x] + rest) == RunBatches(ApplyBatch(s1, x).0, rest);
    assert Answers(s1, [x] + rest, d)
           == (if x.device == d then [ApplyBatch(s1, x).1] else []) + Answers(ApplyBatch(s1, x).0, rest, d);
  }

  lemma SwapFirst(s: Runtime, p: Batch, x: Batch, rest: seq<Batch>, d: Uuid)
    requires DevicesApart(s.mappings) && p.device != x.device
    ensures RunBatches(s, [p, x] + rest) == RunBatches(s, [x, p] + rest)
    ensures Answers(s, [p, x] + rest, d) == Answers(s, [x, p] + rest, d)
  {
    RunTwo(s, p, x, rest, d);
    RunTwo(s, x, p, rest, d);
    BatchesCommute(s, p.device, p.updates, p.now, x.device, x.updates, x.now);
  }

  lemma Regroup(pre: seq<Batch>, x: Batch, post: seq<Batch>)
    requires pre != []
    ensures [pre[0]] + (pre[1..] + [x] + post) == pre + [x] + post
    ensures [pre[0]] + ([x] + pre[1..] + post) == [pre[0], x] + (pre[1..] + post)
    ensures [x, pre[0]] + (pre[1..] + post) == [x] + pre + post
  {
  }

  /** A batch can be moved in front of batches of other devices. */
  lemma {:induction false} MoveToFront(s: Runtime, pre: seq<Batch>, x: Batch, post: seq<Batch>, d: Uuid)
    requires DevicesApart(s.mappings) && forall i :: 0 <= i < |pre| ==> pre[i].device != x.device
    ensures RunBatches(s, pre + [x] + post) == RunBatches(s, [x] + pre + post)
    ensures Answers(s, pre + [x] + post, d) == Answers(s, [x] + pre + post, d)
    decreases pre
  {
    if pre == [] {
      assert pre + [x] + post == [x] + pre + post;
    } else {
      var p, rest, s1 := pre[0], pre[1..], ApplyBatch(s, pre[0]).0;
      BatchKeepsApart(s, p);
      MoveToFront(s1, rest, x, post, d);
      SameFirstAt(s, p, rest + [x] + post, [x] + rest + post, d);
      Regroup(pre, x, post);
      SwapFirst(s, p, x, rest + post, d);
    }
  }

  lemma SameFirstAt(s: Runtime, x: Batch, xs: seq<Batch>, ys: seq<Batch>, d: Uuid)
    requires RunBatches(ApplyBatch(s, x).0, xs) == RunBatches(ApplyBatch(s, x).0, ys)
    requires Answers(ApplyBatch(s, x).0, xs, d) == Answers(ApplyBatch(s, x).0, ys, d)
    ensures RunBatches(s, [x] + xs) == RunBatches(s, [x] + ys) && Answers(s, [x] + xs, d) == Answers(s, [x] + ys, d)
  {
    assert ([x] + xs)[1..] == xs && ([x] + ys)[1..] == ys;
  }

  lemma {:induction false} OfConcat(a: seq<Batch>, b: seq<Batch>, d: Uuid)
    ensures Of(a + b, d) == Of(a, d) + Of(b, d)
    decreases a
  {
    if a == [] {
      assert a + b == b;
    } else {
      assert (a + b)[1..] == a[1..] + b;
      OfConcat(a[1..], b, d);
    }
  }

  /** The first batch of device d, when it has any. */
  lemma {:induction false} FirstOf(bs: seq<Batch>, d: Uuid) returns (i: nat)
    requires Of(bs, d) != []
    ensures i < |bs| && bs[i] == Of(bs, d)[0] && bs[i].device == d
    ensures forall k :: 0 <= k < i ==> bs[k].device != d
    decreases bs
  {
    if bs[0].device == d {
      i := 0;
    } else {
      var k := FirstOf(bs[1..], d);
      i := k + 1;
    }
  }

  lemma {:induction false} OfNone(bs: seq<Batch>, d: Uuid)
    requires forall k :: 0 <= k < |bs| ==> bs[k].device != d
    ensures Of(bs, d) == []
    decreases bs
  {
    if bs != [] { OfNone(bs[1..], d); }
  }

  /** The two sequences interleave the same batches, device by device. */
  ghost predicate SameOrders(xs: seq<Batch>, ys: seq<Batch>) {
    forall d :: Of(xs, d) == Of(ys, d)
  }

  /** The two sequences lead to the same state and give every device the same answers. */
  ghost predicate SameEffect(s: Runtime, xs: seq<Batch>, ys: seq<Batch>) {
    RunBatches(s, xs) == RunBatches(s, ys) && forall d :: Answers(s, xs, d) == Answers(s, ys, d)
  }

  lemma OfCutOut(bs: seq<Batch>, i: nat, d: Uuid)
    requires i < |bs|
    ensures Of(bs, d) == Of(bs[..i], d) + Of(bs[i..], d)
    ensures Of(bs[i..], d) == if bs[i].device == d then [bs[i]] + Of(bs[i + 1..], d) else Of(bs[i + 1..], d)
    ensures Of(bs[..i] + bs[i + 1..], d) == Of(bs[..i], d) + Of(bs[i + 1..], d)
  {
    assert bs == bs[..i] + bs[i..] && bs[i..][1..] == bs[i + 1..];
    OfConcat(bs[..i], bs[i..], d);
    OfConcat(bs[..i], bs[i + 1..], d);
  }

  lemma SameTail(x: Batch, l: seq<Batch>, r: seq<Batch>)
    requires [x] + l == [x] + r
    ensures l == r
  {
    assert l == ([x] + l)[1..] == ([x] + r)[1..] == r;
  }

  lemma CutOutSame(xs: seq<Batch>, ys: seq<Batch>, i: nat, d: Uuid)
    requires xs != [] && i < |ys| && ys[i] == xs[0] && forall k :: 0 <= k < i ==> ys[k].device != xs[0].device
    requires Of(xs, d) == Of(ys, d)
    ensures Of(xs[1..], d) == Of(ys[..i] + ys[i + 1..], d)
  {
    OfCutOut(ys, i, d);
    var l, pre, post := Of(xs[1..], d), Of(ys[..i], d), Of(ys[i + 1..], d);
    if d == xs[0].device {
      OfNone(ys[..i], d);
      assert [xs[0]] + l == [] + ([xs[0]] + post);
      SameTail(xs[0], l, post);
      assert [] + post == post;
    }
  }

  lemma CutOutFirst(xs: seq<Batch>, ys: seq<Batch>) returns (i: nat)
    requires SameOrders(xs, ys) && xs != []
    ensures i < |ys| && ys[i] == xs[0] && forall k :: 0 <= k < i ==> ys[k].device != xs[0].device
    ensures SameOrders(xs[1..], ys[..i] + ys[i + 1..])
  {
    assert Of(xs, xs[0].device)[0] == xs[0];
    i := FirstOf(ys, xs[0].device);
    forall d ensures Of(xs[1..], d) == Of(ys[..i] + ys[i + 1..], d) { CutOutSame(xs, ys, i, d); }
  }

  lemma SomethingLeft(ys: seq<Batch>)
    requires ys != []
    ensures !SameOrders([], ys)
  {
    assert |Of(ys, ys[0].device)| > 0 && Of([], ys[0].device) == [];
  }

  lemma SameFirst(s: Runtime, x: Batch, xs: seq<Batch>, ys: seq<Batch>)
    requires SameEffect(ApplyBatch(s, x).0, xs, ys)
    ensures SameEffect(s, [x] + xs, [x] + ys)
  {
    forall d ensures Answers(s, [x] + xs, d) == Answers(s, [x] + ys, d) { SameFirstAt(s, x, xs, ys, d); }
    SameFirstAt(s, x, xs, ys, x.device);
  }

  /** Interleaving independence: while no two devices own one target, the state reached and
      every answer depend only on each device's own sequence of batches. */
  lemma {:induction false} InterleavingIndependence(s: Runtime, xs: seq<Batch>, ys: seq<Batch>)
    requires DevicesApart(s.mappings) && SameOrders(xs, ys)
    ensures SameEffect(s, xs, ys)
    decreases xs
  {
    if xs == [] {
      if ys != [] { SomethingLeft(ys); }
    } else {
      var i := CutOutFirst(xs, ys);
      var pre, post := ys[..i], ys[i + 1..];
      BatchKeepsApart(s, xs[0]);
      InterleavingIndependence(ApplyBatch(s, xs[0]).0, xs[1..], pre + post);
      SameFirst(s, xs[0], xs[1..], pre + post);
      forall d
        ensures Answers(s, pre + [xs[0]] + post, d) == Answers(s, [xs[0]] + pre + post, d)
      {
        MoveToFront(s, pre, xs[0], post, d);
      }
      MoveToFront(s, pre, xs[0], post, xs[0].device);
      assert xs == [xs[0]] + xs[1..] && ys == pre + [xs[0]] + post;
      assert [xs[0]] + (pre + post) == [xs[0]] + pre + post;
    }
  }
}
