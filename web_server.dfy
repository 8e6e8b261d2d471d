/** The save handler of web_server.cpp: a partial update of the tunable parameters from the
    request's arguments, followed by recomputing the derived travel range. */
module WebServer {
  import opened Arduino
  import opened MainLoop

  /** The request's arguments, each already converted with `toFloat`, keyed by name. */
  type Args = map<string, real>

  /** A field takes the supplied argument when there is one and keeps its value otherwise. */
  predicate StoredOrKept(args: Args, name: string, before: real, after: real) {
    (name in args ==> after == args[name]) && (name !in args ==> after == before)
  }

  /** The supplied argument when there is one, the current value otherwise. */
  function Supplied(args: Args, name: string, current: real): (r: real)
    ensures StoredOrKept(args, name, current, r)
  {
    if name in args then args[name] else current
  }

  /** The parameters after a save: every supplied field overwritten (`share` saturated into
      [ShareMin, ShareMax], all others exactly as given), every other field kept, and the
      range recomputed from the resulting share. */
  function ApplySave(p: Params, args: Args): (r: Params)
    ensures StoredOrKept(args, "offset", p.offset, r.offset)
    ensures "share" in args ==> r.share == Constrain(args["share"], ShareMin, ShareMax)
    ensures "share" in args ==> ShareMin <= r.share <= ShareMax
    ensures "share" !in args ==> r.share == p.share
    ensures StoredOrKept(args, "kFront", p.kFront, r.kFront)
    ensures StoredOrKept(args, "cFront", p.cFront, r.cFront)
    ensures StoredOrKept(args, "kRear", p.kRear, r.kRear)
    ensures StoredOrKept(args, "cRear", p.cRear, r.cRear)
    ensures StoredOrKept(args, "frontBalance", p.frontBalance, r.frontBalance)
    ensures StoredOrKept(args, "rearBalance", p.rearBalance, r.rearBalance)
    ensures RangeDerived(r)
  {
    var share := if "share" in args then Constrain(args["share"], ShareMin, ShareMax) else p.share;
    var suspRange := TotalRange * share;
    Params(
      Supplied(args, "offset", p.offset),
      share, suspRange, suspRange / 2.0,
      Supplied(args, "kFront", p.kFront),
      Supplied(args, "cFront", p.cFront),
      Supplied(args, "kRear", p.kRear),
      Supplied(args, "cRear", p.cRear),
      Supplied(args, "frontBalance", p.frontBalance),
      Supplied(args, "rearBalance", p.rearBalance))
  }

  /** A share inside the enforced interval stays inside it, so the half travel after a save is
      at least half of ShareMin of the total range and the travel is never empty. */
  lemma SaveKeepsShareInRange(p: Params, args: Args)
    requires ShareMin <= p.share <= ShareMax
    ensures ShareMin <= ApplySave(p, args).share <= ShareMax
    ensures ApplySave(p, args).suspHalf >= ShareMin / 2.0 * TotalRange
    ensures ApplySave(p, args).suspHalf > 0.0
  {
  }

  /** An in-range share is stored exactly; an out-of-range one is saturated, not rejected. */
  lemma SaveSaturatesShare(p: Params, s: real)
    ensures s < ShareMin ==> ApplySave(p, map["share" := s]).share == ShareMin
    ensures ShareMax < s ==> ApplySave(p, map["share" := s]).share == ShareMax
    ensures ShareMin <= s <= ShareMax ==> ApplySave(p, map["share" := s]).share == s
  {
  }

  /** A save with no arguments only recomputes the range, so on consistent parameters it
      changes nothing. */
  lemma EmptySaveChangesNothing(p: Params)
    requires RangeDerived(p)
    ensures ApplySave(p, map[]) == p
  {
  }

  /** Two saves in a row are one save of the merged arguments, the later ones winning. */
  lemma SavesCompose(p: Params, a: Args, b: Args)
    ensures ApplySave(ApplySave(p, a), b) == ApplySave(p, a + b)
  {
    if "share" in b {
      assert (a + b)["share"] == b["share"];
    } else if "share" in a {
      assert (a + b)["share"] == a["share"];
    }
  }

  /** Repeating a save changes nothing more. */
  lemma SaveIdempotent(p: Params, a: Args)
    ensures ApplySave(ApplySave(p, a), a) == ApplySave(p, a)
  {
    SavesCompose(p, a, a);
    assert a + a == a;
  }

  /** The parameters after a run of saves, applied in order with no tick in between. */
  function ApplySaves(p: Params, saves: seq<Args>): (r: Params)
    ensures ShareMin <= p.share <= ShareMax ==> ShareMin <= r.share <= ShareMax
    ensures |saves| > 0 ==> RangeDerived(r)
    ensures RangeDerived(p) ==> RangeDerived(r)
    decreases |saves|
  {
    if |saves| == 0 then p else ApplySaves(ApplySave(p, saves[0]), saves[1..])
  }

  /** All the arguments of a run of saves in one map, a later save's value winning. */
  function MergedArgs(saves: seq<Args>): (m: Args)
    ensures forall i :: 0 <= i < |saves| ==> saves[i].Keys <= m.Keys
    ensures forall name :: name in m ==> exists i :: 0 <= i < |saves| && name in saves[i]
    decreases |saves|
  {
    if |saves| == 0 then map[] else saves[0] + MergedArgs(saves[1..])
  }

  /** On consistent parameters, a run of saves equals one save of all their arguments merged,
      so only the last value sent for each field matters. */
  lemma {:induction false} SavesMerge(p: Params, saves: seq<Args>)
    requires RangeDerived(p)
    ensures ApplySaves(p, saves) == ApplySave(p, MergedArgs(saves))
    decreases |saves|
  {
    if |saves| == 0 {
      EmptySaveChangesNothing(p);
    } else {
      var q := ApplySave(p, saves[0]);
      SavesMerge(q, saves[1..]);
      SavesCompose(p, saves[0], MergedArgs(saves[1..]));
    }
  }

  /** `handleSave`: overwrite the supplied fields one at a time (each `if (hasArg) field = arg`
      is a store of `Supplied`), then recompute the range.
      The servos keep their positions and velocities. */
  method HandleSave(c: Controller, args: Args)
    requires c.Valid()
    modifies c
    ensures c.Valid()
    ensures c.Snapshot() == ApplySave(old(c.Snapshot()), args)
    ensures c.Servos() == old(c.Servos())
  {
    c.offset := Supplied(args, "offset", c.offset);
    if "share" in args { c.share := Constrain(args["share"], ShareMin, ShareMax); }
    c.kFront := Supplied(args, "kFront", c.kFront);
    c.cFront := Supplied(args, "cFront", c.cFront);
    c.kRear := Supplied(args, "kRear", c.kRear);
    c.cRear := Supplied(args, "cRear", c.cRear);
    c.frontBalance := Supplied(args, "frontBalance", c.frontBalance);
    c.rearBalance := Supplied(args, "rearBalance", c.rearBalance);
    c.UpdateSuspensionRange();
    SaveKeepsShareInRange(old(c.Snapshot()), args);
  }
}
