/**
 * The minimap's memory (src/Minimap.js): the trail of (progress,
 * consciousness) points it samples every fifth frame, the events it has
 * been told about, and the two linear maps that place both on the canvas.
 */
module Minimap {
  import Events

  /** A sampled point of the trail. */
  datatype Point = Point(p: real, c: real)

  /** An event remembered for drawing. */
  datatype PastEvent = PastEvent(p: real, c: real, color: Events.Color)

  /** The trail takes one point every this many frames. */
  const SampleEvery: nat := 5

  /** Vertical padding of the canvas, in pixels. */
  const PadTop: real := 60.0
  const PadBottom: real := 60.0

  /** Points in the order the life was lived. */
  ghost predicate NonDecreasing(history: seq<Point>)
  {
    forall i, j :: 0 <= i < j < |history| ==> history[i].p <= history[j].p
  }

  /** A sampling frame starts the trail again when progress went back (the life looped). */
  predicate Restarts(history: seq<Point>, progress: real)
  {
    |history| > 0 && progress < history[|history| - 1].p
  }

  /** The trail after a sampling frame. */
  function Sampled(history: seq<Point>, progress: real, c: real): (h: seq<Point>)
    ensures |h| > 0 && h[|h| - 1] == Point(progress, c)
    ensures Restarts(history, progress) ==> h == [Point(progress, c)]
    ensures !Restarts(history, progress) ==> h == history + [Point(progress, c)]
  {
    (if Restarts(history, progress) then [] else history) + [Point(progress, c)]
  }

  /** Sampling keeps the trail in order. */
  lemma SampledKeepsOrder(history: seq<Point>, progress: real, c: real)
    requires NonDecreasing(history)
    ensures NonDecreasing(Sampled(history, progress, c))
  {
    var h := Sampled(history, progress, c);
    if !Restarts(history, progress) {
      forall i, j | 0 <= i < j < |h|
        ensures h[i].p <= h[j].p
      {
        if j == |h| - 1 && i < |history| {
          assert history[i].p <= history[|history| - 1].p;
        }
      }
    }
  }

  /** A sampling frame never makes the trail longer by more than one point. */
  lemma SampledGrowsByAtMostOne(history: seq<Point>, progress: real, c: real)
    ensures 1 <= |Sampled(history, progress, c)| <= |history| + 1
  {
  }

  class Minimap {
    var history: seq<Point>
    var pastEvents: seq<PastEvent>
    var frameCount: nat

    /** The trail is in order and holds at most one point per five frames. */
    ghost predicate Valid()
      reads this
    {
      NonDecreasing(history) && |history| <= frameCount / SampleEvery
    }

    constructor ()
      ensures Valid()
      ensures history == [] && pastEvents == [] && frameCount == 0
    {
      history := [];
      pastEvents := [];
      frameCount := 0;
    }

    /** update, without the drawing: count the frame and, every fifth one, sample. */
    method Update(progress: real, consciousness: real)
      requires Valid()
      modifies this`history, this`pastEvents, this`frameCount
      ensures Valid()
      ensures frameCount == old(frameCount) + 1
      ensures frameCount % SampleEvery != 0 ==>
        history == old(history) && pastEvents == old(pastEvents)
      ensures frameCount % SampleEvery == 0 ==>
        history == Sampled(old(history), progress, consciousness) &&
        pastEvents == (if Restarts(old(history), progress) then [] else old(pastEvents))
    {
      frameCount := frameCount + 1;
      if frameCount % SampleEvery == 0 {
        if |history| > 0 && progress < history[|history| - 1].p {
          history := [];
          pastEvents := [];
        }
        SampledKeepsOrder(old(history), progress, consciousness);
        history := history + [Point(progress, consciousness)];
      }
    }

    /** registerEvent: remember where and how an event fired. */
    method RegisterEvent(eventData: Events.EventReport)
      requires Valid()
      modifies this`pastEvents
      ensures Valid()
      ensures pastEvents == old(pastEvents) + [PastEvent(eventData.t, eventData.consciousness, eventData.color)]
    {
      pastEvents := pastEvents + [PastEvent(eventData.t, eventData.consciousness, eventData.color)];
    }
  }

  /** mapY: time 0 at the bottom padding, time 1 at the top padding. */
  function MapY(t: real, height: real): (y: real)
  {
    height - PadBottom - t * (height - PadTop - PadBottom)
  }

  /** The ends of a life sit on the paddings. */
  lemma MapYEnds(height: real)
    ensures MapY(0.0, height) == height - PadBottom
    ensures MapY(1.0, height) == PadTop
  {
  }

  /** On a canvas taller than its paddings, later moments are drawn higher, inside the paddings. */
  lemma MapYOrdered(t1: real, t2: real, height: real)
    requires height > PadTop + PadBottom
    requires 0.0 <= t1 < t2 <= 1.0
    ensures PadTop <= MapY(t2, height) < MapY(t1, height) <= height - PadBottom
  {
    var avail := height - PadTop - PadBottom;
    assert MapY(t1, height) - MapY(t2, height) == (t2 - t1) * avail;
    assert MapY(t2, height) - PadTop == (1.0 - t2) * avail;
    assert height - PadBottom - MapY(t1, height) == t1 * avail;
  }

  /** The graph takes the canvas right of its first 35%. */
  function GraphZoneStart(width: real): real
  {
    width * 0.35
  }

  function GraphZoneWidth(width: real): real
  {
    width - GraphZoneStart(width)
  }

  /** The guide lines for consciousness 1 and -1. */
  function LeftLimit(width: real): real
  {
    GraphZoneStart(width) + GraphZoneWidth(width) * 0.15
  }

  function RightLimit(width: real): real
  {
    GraphZoneStart(width) + GraphZoneWidth(width) * 0.85
  }

  /** mapXForPoints: high consciousness to the left, low to the right. */
  function MapX(c: real, width: real): real
  {
    GraphZoneStart(width) + GraphZoneWidth(width) * 0.15 + (1.0 - c) / 2.0 * (GraphZoneWidth(width) * 0.7)
  }

  /** Consciousness 1, 0 and -1 land on the left guide, the centre line and the right guide. */
  lemma MapXGuides(width: real)
    ensures MapX(1.0, width) == LeftLimit(width)
    ensures MapX(0.0, width) == GraphZoneStart(width) + GraphZoneWidth(width) / 2.0
    ensures MapX(-1.0, width) == RightLimit(width)
  {
  }

  /** On a canvas of positive width, higher consciousness lies further left, between the guides. */
  lemma MapXOrdered(c1: real, c2: real, width: real)
    requires width > 0.0
    requires -1.0 <= c1 < c2 <= 1.0
    ensures LeftLimit(width) <= MapX(c2, width) < MapX(c1, width) <= RightLimit(width)
  {
    var span := GraphZoneWidth(width) * 0.7;
    assert span > 0.0;
    assert MapX(c1, width) - MapX(c2, width) == (c2 - c1) / 2.0 * span;
    assert MapX(c2, width) - LeftLimit(width) == (1.0 - c2) / 2.0 * span;
    var below := (1.0 + c1) / 2.0;
    assert RightLimit(width) - MapX(c1, width) == below * span;
    assert below * span >= 0.0;
  }
}
