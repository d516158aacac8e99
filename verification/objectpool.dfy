/** Database connection pool: `acquire` pops the most recently released
    connection or creates a new one; `release` keeps a connection (after
    closing it) only while fewer than `maxSize` are pooled. Connections are
    identified by the order in which the pool created them. */
module ConnectionPool {

  type Id = nat

  /** `created` counts constructions (the next connection gets that id);
      `closed` logs each `close()` call made by `release`. */
  datatype Pool = Pool(maxSize: int, pool: seq<Id>, created: nat, closed: seq<Id>)

  datatype Acquired = Acquired(connection: Id, after: Pool)

  function New(maxSize: int): (p: Pool)
    ensures p.maxSize == maxSize && p.pool == [] && p.created == 0 && p.closed == []
  {
    Pool(maxSize, [], 0, [])
  }

  /** `acquire`. */
  function Acquire(p: Pool): (a: Acquired)
    ensures a.after.maxSize == p.maxSize && a.after.closed == p.closed
    ensures |p.pool| == 0 ==>
      a.connection == p.created && a.after.created == p.created + 1 && a.after.pool == []
    ensures |p.pool| > 0 ==>
      a.connection == p.pool[|p.pool| - 1] && a.after.pool == p.pool[..|p.pool| - 1] &&
      a.after.created == p.created
  {
    if |p.pool| == 0 then Acquired(p.created, p.(created := p.created + 1))
    else Acquired(p.pool[|p.pool| - 1], p.(pool := p.pool[..|p.pool| - 1]))
  }

  /** `release(connection)`. */
  function Release(p: Pool, c: Id): (r: Pool)
    ensures r.maxSize == p.maxSize && r.created == p.created
    ensures |p.pool| < p.maxSize ==> r.pool == p.pool + [c] && r.closed == p.closed + [c]
    ensures |p.pool| >= p.maxSize ==> r == p
  {
    if |p.pool| < p.maxSize then p.(pool := p.pool + [c], closed := p.closed + [c]) else p
  }

  /** The pool never holds more than `maxSize` connections (it may hold none
      when `maxSize` is not positive). */
  predicate Bounded(p: Pool)
  {
    |p.pool| == 0 || |p.pool| <= p.maxSize
  }

  datatype Op = AcquireOp | ReleaseOp(connection: Id)

  function Apply(p: Pool, op: Op): Pool
  {
    match op
    case AcquireOp => Acquire(p).after
    case ReleaseOp(c) => Release(p, c)
  }

  function ApplyAll(p: Pool, ops: seq<Op>): Pool
    decreases |ops|
  {
    if |ops| == 0 then p else ApplyAll(Apply(p, ops[0]), ops[1..])
  }

  lemma ApplyKeepsBounded(p: Pool, op: Op)
    requires Bounded(p)
    ensures Bounded(Apply(p, op)) && Apply(p, op).maxSize == p.maxSize
  {
  }

  /** Starting from an empty pool, any sequence of acquires and releases keeps
      the pool within `maxSize`. */
  lemma {:induction false} AlwaysBounded(maxSize: int, ops: seq<Op>)
    ensures Bounded(ApplyAll(New(maxSize), ops))
  {
    BoundedFrom(New(maxSize), ops);
  }

  lemma {:induction false} BoundedFrom(p: Pool, ops: seq<Op>)
    requires Bounded(p)
    ensures Bounded(ApplyAll(p, ops))
    decreases |ops|
  {
    if |ops| > 0 {
      ApplyKeepsBounded(p, ops[0]);
      BoundedFrom(Apply(p, ops[0]), ops[1..]);
    }
  }

  /** LIFO round trip: releasing into a non-full pool and acquiring hands back
      the same connection and the previous pool contents. */
  lemma ReleaseThenAcquire(p: Pool, c: Id)
    requires |p.pool| < p.maxSize
    ensures Acquire(Release(p, c)).connection == c
    ensures Acquire(Release(p, c)).after.pool == p.pool
  {
    assert (p.pool + [c])[..|p.pool|] == p.pool;
  }

  /** Once `maxSize` connections are pooled, a release is discarded: the pool
      is left exactly as it was. */
  lemma FullPoolDiscards(p: Pool, c: Id)
    requires |p.pool| >= p.maxSize
    ensures Release(p, c) == p
  {
  }

  /** The client run: one connection is created, released, and reused. */
  lemma ClientRun()
    ensures var a1 := Acquire(New(5));
            var p1 := Release(a1.after, a1.connection);
            var a2 := Acquire(p1);
            a1.connection == 0 && a2.connection == 0 && Release(a2.after, a2.connection).created == 1
  {
  }
}

/** Image pool: unbounded; `getImage` reuses a pooled image (retargeting its
    source) or constructs a new one. */
module ImagePool {

  /** An `ImageObject`: its identity and current `src`. */
  datatype Image = Image(id: nat, src: string)

  /** Console lines printed by the pool and by the image constructor. */
  datatype Line = CreatingImage(src: string) | LoadingImage(src: string)

  datatype Pool = Pool(pool: seq<Image>, created: nat, log: seq<Line>)

  datatype Got = Got(image: Image, after: Pool)

  function New(): (p: Pool)
    ensures p.pool == [] && p.created == 0 && p.log == []
  {
    Pool([], 0, [])
  }

  /** `getImage(src)`. */
  function GetImage(p: Pool, src: string): (g: Got)
    ensures g.image.src == src
    ensures |p.pool| > 0 ==>
      g.image.id == p.pool[|p.pool| - 1].id && g.after == p.(pool := p.pool[..|p.pool| - 1])
    ensures |p.pool| == 0 ==>
      g.image.id == p.created && g.after.pool == [] && g.after.created == p.created + 1 &&
      g.after.log == p.log + [CreatingImage(src), LoadingImage(src)]
  {
    if |p.pool| > 0 then
      var image := p.pool[|p.pool| - 1];
      Got(image.(src := src), p.(pool := p.pool[..|p.pool| - 1]))
    else
      Got(Image(p.created, src),
          Pool([], p.created + 1, p.log + [CreatingImage(src), LoadingImage(src)]))
  }

  /** `releaseImage`: always pushes; there is no bound. */
  function ReleaseImage(p: Pool, image: Image): (r: Pool)
    ensures r.pool == p.pool + [image] && |r.pool| == |p.pool| + 1
    ensures r.created == p.created && r.log == p.log
  {
    p.(pool := p.pool + [image])
  }

  /** Release then get: the same image object comes back, with the new
      source, and the pool is as before. */
  lemma ReleaseThenGet(p: Pool, image: Image, src: string)
    ensures GetImage(ReleaseImage(p, image), src).image == image.(src := src)
    ensures GetImage(ReleaseImage(p, image), src).after == p
  {
    assert (p.pool + [image])[..|p.pool|] == p.pool;
  }

  /** The client run: one image object is constructed and then reused. */
  lemma ClientRun()
    ensures var g1 := GetImage(New(), "image1.jpg");
            var g2 := GetImage(ReleaseImage(g1.after, g1.image), "image2.jpg");
            g2.image == Image(0, "image2.jpg") && g2.after.created == 1 &&
            g2.after.log == [CreatingImage("image1.jpg"), LoadingImage("image1.jpg")]
  {
    ReleaseThenGet(GetImage(New(), "image1.jpg").after, Image(0, "image1.jpg"), "image2.jpg");
  }
}
