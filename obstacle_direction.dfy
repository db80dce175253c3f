/**
 * The cane's direction rule. Each camera frame yields detections (a score and
 * a box in normalised coordinates). Confident, non-tiny boxes are binned by
 * the horizontal position of their centre into left, center and right, each
 * bin adding up its boxes' areas. The message points toward the bin with
 * strictly the least area, or straight ahead; it is sent at most once every
 * five seconds.
 *
 * Arithmetic is exact on `real`; the source uses floating point.
 */
module ObstacleDirection {

  /** One detector output: its score and its box `ymin, xmin, ymax, xmax`. */
  datatype Detection = Detection(score: real, ymin: real, xmin: real, ymax: real, xmax: real)

  datatype Bin = Left | Center | Right

  datatype Direction = MoveLeft | MoveRight | MoveForward

  /** What a frame's gate step did with the message. */
  datatype SendOutcome = NotDue | Sent(message: string) | SendFailed(message: string)

  const ScoreThreshold: real := 0.5
  const MinArea: real := 0.01
  const LeftEdge: real := 0.33
  const RightEdge: real := 0.66
  const MessageInterval: real := 5.0

  function BoxArea(d: Detection): real
  {
    (d.xmax - d.xmin) * (d.ymax - d.ymin)
  }

  function XCenter(d: Detection): real
  {
    (d.xmin + d.xmax) / 2.0
  }

  /** A detection counts when its score is above the threshold and its box is not tiny. */
  predicate Qualifies(d: Detection)
  {
    d.score > ScoreThreshold && BoxArea(d) >= MinArea
  }

  /** The bin of a box; both edge values belong to the center bin. */
  function BinOf(d: Detection): (b: Bin)
    ensures b == Left <==> XCenter(d) < LeftEdge
    ensures b == Right <==> XCenter(d) > RightEdge
    ensures b == Center <==> LeftEdge <= XCenter(d) <= RightEdge
  {
    if XCenter(d) < LeftEdge then Left
    else if XCenter(d) > RightEdge then Right
    else Center
  }

  /** Reference definition: the total area of the qualifying detections of bin `b`. */
  function BinArea(ds: seq<Detection>, b: Bin): real
  {
    if ds == [] then 0.0
    else
      var d := ds[|ds| - 1];
      BinArea(ds[..|ds| - 1], b) + (if Qualifies(d) && BinOf(d) == b then BoxArea(d) else 0.0)
  }

  /** The total area of all qualifying detections, whatever their bin. */
  function QualifyingArea(ds: seq<Detection>): real
  {
    if ds == [] then 0.0
    else
      var d := ds[|ds| - 1];
      QualifyingArea(ds[..|ds| - 1]) + (if Qualifies(d) then BoxArea(d) else 0.0)
  }

  /** The qualifying detections, in order. */
  function Qualifying(ds: seq<Detection>): (qs: seq<Detection>)
    ensures forall i :: 0 <= i < |qs| ==> Qualifies(qs[i])
    ensures forall d :: d in qs <==> d in ds && Qualifies(d)
  {
    if ds == [] then []
    else
      var d := ds[|ds| - 1];
      assert ds == ds[..|ds| - 1] + [d];
      Qualifying(ds[..|ds| - 1]) + (if Qualifies(d) then [d] else [])
  }

  /** Each qualifying detection is kept as often as it occurs; the others never. */
  lemma {:induction false} QualifyingMultiplicity(ds: seq<Detection>, d: Detection)
    ensures multiset(Qualifying(ds))[d] == if Qualifies(d) then multiset(ds)[d] else 0
  {
    if ds != [] {
      var e := ds[|ds| - 1];
      assert ds == ds[..|ds| - 1] + [e];
      QualifyingMultiplicity(ds[..|ds| - 1], d);
    }
  }

  /**
   * The per-frame loop: bins start at zero; a detection with a low score or a
   * tiny box is skipped; any other one adds its area to exactly the bin its
   * centre falls in.
   */
  method BinDetections(ds: seq<Detection>) returns (leftArea: real, centerArea: real, rightArea: real)
    ensures leftArea == BinArea(ds, Left)
    ensures centerArea == BinArea(ds, Center)
    ensures rightArea == BinArea(ds, Right)
  {
    leftArea, centerArea, rightArea := 0.0, 0.0, 0.0;
    for i := 0 to |ds|
      invariant leftArea == BinArea(ds[..i], Left)
      invariant centerArea == BinArea(ds[..i], Center)
      invariant rightArea == BinArea(ds[..i], Right)
    {
      var d := ds[i];
      assert ds[..i + 1] == ds[..i] + [d];
      BinAreaAppend(ds[..i], d, Left);
      BinAreaAppend(ds[..i], d, Center);
      BinAreaAppend(ds[..i], d, Right);
      if d.score > ScoreThreshold {
        var boxArea := (d.xmax - d.xmin) * (d.ymax - d.ymin);
        assert boxArea == BoxArea(d);
        if boxArea < MinArea {
          continue;
        }
        assert Qualifies(d);
        var xCenter := (d.xmin + d.xmax) / 2.0;
        if xCenter < LeftEdge {
          assert BinOf(d) == Left;
          leftArea := leftArea + boxArea;
        } else if xCenter > RightEdge {
          assert BinOf(d) == Right;
          rightArea := rightArea + boxArea;
        } else {
          assert BinOf(d) == Center;
          centerArea := centerArea + boxArea;
        }
      }
    }
    assert ds[..|ds|] == ds;
  }

  /** One more detection changes at most its own bin, and only when it qualifies. */
  lemma BinAreaAppend(ds: seq<Detection>, d: Detection, b: Bin)
    ensures BinArea(ds + [d], b) == BinArea(ds, b) + (if Qualifies(d) && BinOf(d) == b then BoxArea(d) else 0.0)
  {
    assert (ds + [d])[..|ds|] == ds;
  }

  /** Bins only ever receive areas of at least the minimum, so none is negative. */
  lemma {:induction false} BinAreaNonNegative(ds: seq<Detection>, b: Bin)
    ensures BinArea(ds, b) >= 0.0
  {
    if ds != [] {
      BinAreaNonNegative(ds[..|ds| - 1], b);
    }
  }

  /** The three bins split the qualifying area among them. */
  lemma {:induction false} BinsPartitionQualifyingArea(ds: seq<Detection>)
    ensures BinArea(ds, Left) + BinArea(ds, Center) + BinArea(ds, Right) == QualifyingArea(ds)
  {
    if ds != [] {
      BinsPartitionQualifyingArea(ds[..|ds| - 1]);
    }
  }

  /** Detections that fail the score or size test contribute nothing to any bin. */
  lemma {:induction false} OnlyQualifyingCount(ds: seq<Detection>, b: Bin)
    ensures BinArea(ds, b) == BinArea(Qualifying(ds), b)
  {
    if ds != [] {
      var d := ds[|ds| - 1];
      OnlyQualifyingCount(ds[..|ds| - 1], b);
      if Qualifies(d) {
        BinAreaAppend(Qualifying(ds[..|ds| - 1]), d, b);
      } else {
        assert Qualifying(ds) == Qualifying(ds[..|ds| - 1]) + [];
        assert Qualifying(ds[..|ds| - 1]) + [] == Qualifying(ds[..|ds| - 1]);
      }
    }
  }

  /** A frame in which nothing qualifies leaves all three bins at zero. */
  lemma {:induction false} NothingQualifiesAllZero(ds: seq<Detection>, b: Bin)
    requires forall i :: 0 <= i < |ds| ==> !Qualifies(ds[i])
    ensures BinArea(ds, b) == 0.0
  {
    if ds != [] {
      NothingQualifiesAllZero(ds[..|ds| - 1], b);
    }
  }

  /**
   * The direction choice: toward the side bin whose area is strictly the
   * least of the three, otherwise forward. Ties never turn the user.
   */
  function Decide(leftArea: real, centerArea: real, rightArea: real): (m: Direction)
    ensures m == MoveLeft <==> leftArea < centerArea && leftArea < rightArea
    ensures m == MoveRight <==> rightArea < centerArea && rightArea < leftArea
    ensures m == MoveForward <==>
      (leftArea >= centerArea || leftArea >= rightArea) && (rightArea >= centerArea || rightArea >= leftArea)
    ensures leftArea == rightArea ==> m == MoveForward
  {
    if leftArea < centerArea && leftArea < rightArea then MoveLeft
    else if rightArea < centerArea && rightArea < leftArea then MoveRight
    else MoveForward
  }

  /** The text sent over the link for each direction. */
  function Message(m: Direction): string
  {
    match m
    case MoveLeft => "Move left"
    case MoveRight => "Move right"
    case MoveForward => "Move forward"
  }

  /** The direction a frame's detections call for. */
  function FrameDirection(ds: seq<Detection>): Direction
  {
    Decide(BinArea(ds, Left), BinArea(ds, Center), BinArea(ds, Right))
  }

  /** With nothing in view (or nothing that qualifies) the cane says forward. */
  lemma EmptyFrameGoesForward(ds: seq<Detection>)
    requires forall i :: 0 <= i < |ds| ==> !Qualifies(ds[i])
    ensures FrameDirection(ds) == MoveForward
  {
    NothingQualifiesAllZero(ds, Left);
    NothingQualifiesAllZero(ds, Right);
  }

  /** Each time stamp is at least the send interval after the one before it. */
  predicate Spaced(ts: seq<real>)
  {
    forall k :: 0 < k < |ts| ==> ts[k] - ts[k - 1] >= MessageInterval
  }

  /** Attempts `k - j` places apart are at least `k - j` send intervals apart in time. */
  lemma {:induction false} SpacedApart(ts: seq<real>, j: nat, k: nat)
    requires Spaced(ts) && j <= k < |ts|
    ensures ts[k] - ts[j] >= MessageInterval * (k - j) as real
  {
    if j < k {
      SpacedApart(ts, j, k - 1);
    }
  }

  /**
   * The rate limit of the main loop. `stamps` holds the clock reading taken
   * before the loop followed by the time of every send attempt since.
   */
  class DirectionSender {
    var lastMessageTime: real
    ghost var stamps: seq<real>

    /** Consecutive attempts (and the first one after start) are at least five seconds apart. */
    ghost predicate Valid()
      reads this
    {
      && |stamps| > 0
      && stamps[|stamps| - 1] == lastMessageTime
      && Spaced(stamps)
    }

    /** The last attempt is at least one send interval per attempt after the start. */
    lemma AttemptsSpread()
      requires Valid()
      ensures lastMessageTime - stamps[0] >= MessageInterval * (|stamps| - 1) as real
    {
      SpacedApart(stamps, 0, |stamps| - 1);
    }

    constructor (startTime: real)
      ensures Valid() && lastMessageTime == startTime && stamps == [startTime]
    {
      lastMessageTime := startTime;
      stamps := [startTime];
    }

    /**
     * The gate at the end of a frame: when five seconds have passed, decide
     * and attempt to send; the time is recorded whether or not the send
     * raises (`sendRaises` stands for the link's failure).
     */
    method Tick(currentTime: real, leftArea: real, centerArea: real, rightArea: real, sendRaises: bool)
        returns (outcome: SendOutcome)
      requires Valid()
      modifies this
      ensures Valid()
      ensures outcome == NotDue <==> currentTime - old(lastMessageTime) < MessageInterval
      ensures outcome == NotDue ==> lastMessageTime == old(lastMessageTime) && stamps == old(stamps)
      ensures outcome != NotDue ==>
        && lastMessageTime == currentTime
        && stamps == old(stamps) + [currentTime]
        && outcome.message == Message(Decide(leftArea, centerArea, rightArea))
        && (outcome.SendFailed? <==> sendRaises)
    {
      if currentTime - lastMessageTime >= MessageInterval {
        var directionMessage := Message(Decide(leftArea, centerArea, rightArea));
        if sendRaises {
          outcome := SendFailed(directionMessage);
        } else {
          outcome := Sent(directionMessage);
        }
        lastMessageTime := currentTime;
        stamps := stamps + [currentTime];
      } else {
        outcome := NotDue;
      }
    }

    /** One pass of the main loop over a frame's detections. */
    method ProcessFrame(ds: seq<Detection>, currentTime: real, sendRaises: bool) returns (outcome: SendOutcome)
      requires Valid()
      modifies this
      ensures Valid()
      ensures outcome == NotDue <==> currentTime - old(lastMessageTime) < MessageInterval
      ensures outcome == NotDue ==> lastMessageTime == old(lastMessageTime) && stamps == old(stamps)
      ensures outcome != NotDue ==>
        && lastMessageTime == currentTime
        && stamps == old(stamps) + [currentTime]
        && outcome.message == Message(FrameDirection(ds))
        && (outcome.SendFailed? <==> sendRaises)
    {
      var leftArea, centerArea, rightArea := BinDetections(ds);
      outcome := Tick(currentTime, leftArea, centerArea, rightArea, sendRaises);
    }
  }

  /**
   * Frames at 3, 5, 6, 10 and 14 seconds after a start at 0: too early; an
   * attempt that goes through; too early; an attempt whose send raises; too
   * early again, because the failed attempt also restarted the five seconds.
   */
  method GateScenario() returns (outcomes: seq<SendOutcome>)
    ensures outcomes == [NotDue, Sent("Move forward"), NotDue, SendFailed("Move left"), NotDue]
  {
    var sender := new DirectionSender(0.0);
    var o1 := sender.Tick(3.0, 0.0, 0.0, 0.0, false);
    var o2 := sender.Tick(5.0, 0.0, 0.0, 0.0, false);
    var o3 := sender.Tick(6.0, 0.0, 0.0, 0.0, false);
    var o4 := sender.Tick(10.0, 0.1, 0.2, 0.3, true);
    var o5 := sender.Tick(14.0, 0.0, 0.0, 0.0, false);
    outcomes := [o1, o2, o3, o4, o5];
  }
}
