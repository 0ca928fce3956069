/** FlowerPart: a node of the growth animation. A running part advances
    its ticker every frame, shows it through the `_T` shader property, and
    restarts each child whose ratio the ticker has not passed yet. */
module Part {
  import opened UnityMath

  datatype FlowerPartType = None | Petal | Stover

  /** How far past 1 the ticker runs before the part stops. */
  const Epsilon: real := 0.1

  /** The shader properties the part writes into its MaterialPropertyBlock:
      `_Color2`, `_Bend` and `_T`. */
  datatype Property = PropColor2 | PropBend | PropT
  datatype PropertyValue = ColorValue(color: Color) | FloatValue(value: real)

  /** The fields the animation reads and writes. */
  datatype AnimState = AnimState(animating: bool, ticker: real, speed: real, multiplySpeed: real)

  /** Animate(s): running from ticker 0 at speed s; the multiplier stays. */
  function Started(a: AnimState, s: real): (r: AnimState)
    ensures r.animating && r.ticker == 0.0 && r.speed == s && r.multiplySpeed == a.multiplySpeed
  {
    a.(speed := s, animating := true, ticker := 0.0)
  }

  /** One Update(dt) of the part's own fields: a stopped part stays as it
      is; a running one adds dt * multiplySpeed * speed to its ticker and
      stops once the ticker exceeds 1 + Epsilon. */
  function Advance(a: AnimState, dt: real): AnimState {
    if !a.animating then a
    else
      var t := a.ticker + dt * a.multiplySpeed * a.speed;
      a.(ticker := t, animating := !(t > 1.0 + Epsilon))
  }

  /** Update on a stopped part changes nothing; on a running one only the
      ticker and the flag change, the ticker by the scaled frame time. */
  lemma AdvanceEffect(a: AnimState, dt: real)
    ensures !a.animating ==> Advance(a, dt) == a
    ensures a.animating ==> Advance(a, dt).ticker == a.ticker + dt * a.multiplySpeed * a.speed
    ensures a.animating ==> (Advance(a, dt).animating <==> Advance(a, dt).ticker <= 1.0 + Epsilon)
    ensures Advance(a, dt).speed == a.speed && Advance(a, dt).multiplySpeed == a.multiplySpeed
  {
  }

  /** Frame after frame. */
  function Run(a: AnimState, dts: seq<real>): AnimState
    decreases |dts|
  {
    if dts == [] then a else Run(Advance(a, dts[0]), dts[1..])
  }

  /** Once stopped, a part stays stopped and unchanged, whatever the frames. */
  lemma {:induction false} StaysStopped(a: AnimState, dts: seq<real>)
    requires !a.animating
    ensures Run(a, dts) == a
    decreases |dts|
  {
    if dts != [] {
      StaysStopped(Advance(a, dts[0]), dts[1..]);
    }
  }

  /** A running part whose ticker grows by at least `step` > 0 every frame
      has stopped after enough frames: n frames with n * step > 1 + Epsilon
      - ticker. */
  lemma {:induction false} EventuallyStops(a: AnimState, dts: seq<real>, step: real)
    requires step > 0.0 && (a.animating ==> a.ticker <= 1.0 + Epsilon)
    requires forall k :: 0 <= k < |dts| ==> dts[k] * a.multiplySpeed * a.speed >= step
    requires (|dts| as real) * step > 1.0 + Epsilon - a.ticker
    ensures !Run(a, dts).animating
    decreases |dts|
  {
    if !a.animating {
      StaysStopped(a, dts);
    } else {
      var b := Advance(a, dts[0]);
      assert b.ticker >= a.ticker + step;
      if !b.animating {
        StaysStopped(b, dts[1..]);
      } else {
        assert ((|dts| - 1) as real) * step == (|dts| as real) * step - step;
        forall k | 0 <= k < |dts[1..]|
          ensures dts[1..][k] * b.multiplySpeed * b.speed >= step
        {
          assert dts[1..][k] == dts[k + 1];
        }
        EventuallyStops(b, dts[1..], step);
      }
    }
  }

  /** A child edge restarts its part when the parent's ticker has not passed
      the edge's ratio. */
  predicate Restarts(ratio: real, ticker: real) {
    ticker <= ratio
  }

  /** The later child edges start later: an edge restarted at some ticker
      is restarted at every smaller one, and an edge with a larger ratio is
      restarted whenever one with a smaller ratio is. */
  lemma RestartWindow(ratio: real, ratio': real, t: real, t': real)
    requires t' <= t && ratio <= ratio'
    ensures Restarts(ratio, t) ==> Restarts(ratio', t')
    ensures !Restarts(ratio', t') ==> !Restarts(ratio, t)
  {
  }

  /** FlowerSegment: a child edge, the part and the parent's ticker at
      which it starts. */
  class FlowerSegment {
    const part: FlowerPart
    const ratio: real
    /** Never assigned after its initialiser, so every edge stays willing
        to restart its part. */
    const animating: bool := false

    constructor (p: FlowerPart, r: real)
      ensures part == p && ratio == r
    {
      part := p;
      ratio := r;
    }

    /** Restarts the part at the parent's speed while r <= ratio. */
    method Animate(speed: real, r: real)
      modifies part
      ensures if !animating && Restarts(ratio, r) then part.State() == Started(old(part.State()), speed)
              else part.State() == old(part.State())
      ensures part.children == old(part.children) && part.partType == old(part.partType)
      ensures part.block == old(part.block)
    {
      if !animating && r <= ratio {
        part.Animate(speed);
      }
    }
  }

  class FlowerPart {
    var children: seq<FlowerSegment>
    var partType: FlowerPartType
    var animating: bool
    var multiplySpeed: real
    var speed: real
    var ticker: real
    /** The values written to the renderer's MaterialPropertyBlock. */
    var block: map<Property, PropertyValue>

    /** A freshly added component: no children, type None, stopped, both
        speeds 1, ticker 0, nothing written to the renderer. */
    constructor ()
      ensures children == [] && partType == None && block == map[]
      ensures State() == AnimState(false, 0.0, 1.0, 1.0)
    {
      children := [];
      partType := None;
      animating := false;
      multiplySpeed := 1.0;
      speed := 1.0;
      ticker := 0.0;
      block := map[];
    }

    function State(): AnimState
      reads this
    {
      AnimState(animating, ticker, speed, multiplySpeed)
    }

    /** The parts of the child edges. */
    function Parts(): set<FlowerPart>
      reads this
    {
      set s | s in children :: s.part
    }

    /** Whether Update at parent ticker t restarts part p: some edge to p
        has a ratio t has not passed. */
    ghost predicate RestartedBy(edges: seq<FlowerSegment>, p: FlowerPart, t: real) {
      exists k :: 0 <= k < |edges| && edges[k].part == p && Restarts(edges[k].ratio, t)
    }

    /** One frame: the part advances (see Advance), shows its new ticker,
        then restarts at its speed every child part reached by an edge
        whose ratio the new ticker has not passed; the other children are
        left as they are. */
    method Update(dt: real)
      requires this !in Parts()
      modifies this, Parts()
      ensures State() == Advance(old(State()), dt)
      ensures children == old(children) && partType == old(partType)
      ensures block == if old(animating) && partType != None then old(block)[PropT := FloatValue(ticker)]
                       else old(block)
      ensures forall p :: p in old(Parts()) ==>
                && (if old(animating) && RestartedBy(children, p, ticker) then p.State() == Started(old(p.State()), speed)
                    else p.State() == old(p.State()))
                && p.children == old(p.children) && p.partType == old(p.partType) && p.block == old(p.block)
    {
      if !animating {
        return;
      }
      ticker := ticker + dt * multiplySpeed * speed;
      Fade(ticker);
      var k := 0;
      while k < |children|
        invariant 0 <= k <= |children|
        invariant children == old(children) && partType == old(partType) && this !in Parts()
        invariant ticker == old(ticker) + dt * old(multiplySpeed) * old(speed)
        invariant animating && speed == old(speed) && multiplySpeed == old(multiplySpeed)
        invariant block == if partType != None then old(block)[PropT := FloatValue(ticker)] else old(block)
        invariant forall p :: p in old(Parts()) ==>
                    && (if RestartedBy(children[..k], p, ticker) then p.State() == Started(old(p.State()), speed)
                        else p.State() == old(p.State()))
                    && p.children == old(p.children) && p.partType == old(p.partType) && p.block == old(p.block)
      {
        children[k].Animate(speed, ticker);
        forall p | p in old(Parts()) {
          RestartedStep(children, k, ticker, p);
        }
        k := k + 1;
      }
      assert children[..k] == children;
      if ticker > 1.0 + Epsilon {
        animating := false;
      }
    }

    /** The edges up to k + 1 restart p when those up to k do or edge k does. */
    lemma RestartedStep(edges: seq<FlowerSegment>, k: int, t: real, p: FlowerPart)
      requires 0 <= k < |edges|
      ensures RestartedBy(edges[..k + 1], p, t) <==>
                RestartedBy(edges[..k], p, t) || (edges[k].part == p && Restarts(edges[k].ratio, t))
    {
      if RestartedBy(edges[..k + 1], p, t) {
        var j :| 0 <= j < k + 1 && edges[..k + 1][j].part == p && Restarts(edges[..k + 1][j].ratio, t);
        if j < k {
          assert edges[..k][j] == edges[j];
        }
      }
      if RestartedBy(edges[..k], p, t) {
        var j :| 0 <= j < k && edges[..k][j].part == p && Restarts(edges[..k][j].ratio, t);
        assert edges[..k + 1][j] == edges[j];
      }
      assert edges[..k + 1][k] == edges[k];
    }

    method SetType(tp: FlowerPartType)
      modifies this
      ensures partType == tp
      ensures children == old(children) && State() == old(State()) && block == old(block)
    {
      partType := tp;
    }

    /** Colorize, Bend and Fade write their shader property, except on a
        part of type None, where they do nothing. */
    method Colorize(color: Color)
      modifies this
      ensures block == if partType == None then old(block) else old(block)[PropColor2 := ColorValue(color)]
      ensures children == old(children) && partType == old(partType) && State() == old(State())
    {
      if partType == None {
        return;
      }
      block := block[PropColor2 := ColorValue(color)];
    }

    method Bend(bend: real)
      modifies this
      ensures block == if partType == None then old(block) else old(block)[PropBend := FloatValue(bend)]
      ensures children == old(children) && partType == old(partType) && State() == old(State())
    {
      if partType == None {
        return;
      }
      block := block[PropBend := FloatValue(bend)];
    }

    method Fade(t: real)
      modifies this
      ensures block == if partType == None then old(block) else old(block)[PropT := FloatValue(t)]
      ensures children == old(children) && partType == old(partType) && State() == old(State())
    {
      if partType == None {
        return;
      }
      block := block[PropT := FloatValue(t)];
    }

    /** Only the speed multiplier changes. */
    method SetSpeed(m: real)
      modifies this
      ensures State() == old(State()).(multiplySpeed := m)
      ensures children == old(children) && partType == old(partType) && block == old(block)
    {
      multiplySpeed := m;
    }

    /** A new edge to `part` at `ratio`, after the existing ones. */
    method Add(part: FlowerPart, ratio: real)
      modifies this
      ensures |children| == |old(children)| + 1 && children[..|old(children)|] == old(children)
      ensures children[|old(children)|].part == part && children[|old(children)|].ratio == ratio
      ensures fresh(children[|old(children)|])
      ensures State() == old(State()) && partType == old(partType) && block == old(block)
    {
      var segment := new FlowerSegment(part, ratio);
      children := children + [segment];
    }

    /** Animate(s): run from ticker 0 at speed s. */
    method Animate(s: real)
      modifies this
      ensures State() == Started(old(State()), s)
      ensures children == old(children) && partType == old(partType) && block == old(block)
    {
      speed := s;
      animating := true;
      ticker := 0.0;
    }
  }
}
