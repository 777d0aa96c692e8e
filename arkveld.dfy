/** The Guardian Arkveld (Extreme) trigger set: the limit-cut head markers
    that number the party 1 to 8, the Clamorous Chase call that turns the
    player's number into a direction, and the Laser Target call. */
module ArkveldEx {
  import opened Outcomes

  /** Head-marker ids of the limit cut and the number each one assigns. */
  const LimitCutMap: map<string, int> := map[
    "0194" := 1, "0195" := 2, "0196" := 3, "0197" := 4,
    "0198" := 5, "0199" := 6, "019A" := 7, "019B" := 8]

  /** The key list of `LimitCutMap`, in its declaration order. */
  const LimitCutIds: seq<string> := ["0194", "0195", "0196", "0197", "0198", "0199", "019A", "019B"]

  /** The number a head marker assigns, if it is a limit-cut marker. */
  function LimitCutNumber(id: string): (r: Option<int>)
    ensures r.Some? <==> id in LimitCutIds
    ensures r.Some? ==> 1 <= r.value <= |LimitCutIds| && LimitCutIds[r.value - 1] == id
  {
    if id in LimitCutMap then Some(LimitCutMap[id]) else None
  }

  /** The id list is exactly the map's key set, and the map numbers its
      markers 1 to 8 without repeating a number. */
  lemma LimitCutTable()
    ensures (set k | 0 <= k < |LimitCutIds| :: LimitCutIds[k]) == LimitCutMap.Keys
    ensures forall id :: id in LimitCutMap ==> 1 <= LimitCutMap[id] <= 8
    ensures forall a, b :: a in LimitCutMap && b in LimitCutMap && LimitCutMap[a] == LimitCutMap[b] ==> a == b
  {
    var listed := set k | 0 <= k < |LimitCutIds| :: LimitCutIds[k];
    forall id | id in LimitCutMap
      ensures id in listed
    {
      var n := LimitCutNumber(id);
      assert LimitCutIds[n.value - 1] == id;
    }
    forall id | id in listed
      ensures id in LimitCutMap
    {
      var k :| 0 <= k < |LimitCutIds| && LimitCutIds[k] == id;
      assert LimitCutNumber(id).Some?;
    }
    forall a, b | a in LimitCutMap && b in LimitCutMap && LimitCutMap[a] == LimitCutMap[b]
      ensures a == b
    {
      var na, nb := LimitCutNumber(a), LimitCutNumber(b);
      assert LimitCutIds[na.value - 1] == a && LimitCutIds[nb.value - 1] == b;
    }
  }

  /** The per-player trigger data of this fight. */
  class Data {
    var me: string
    var limitCutNumber: Option<int>

    constructor(me: string)
      ensures this.me == me && limitCutNumber == None
    {
      this.me := me;
      limitCutNumber := None;
    }

    /** The Limit Cut `run`: a limit-cut marker records its number; any
        other marker leaves the data as it was. */
    method LimitCutRun(id: string)
      modifies this
      ensures me == old(me)
      ensures id in LimitCutIds ==> limitCutNumber == LimitCutNumber(id)
      ensures id in LimitCutIds ==> 1 <= limitCutNumber.value <= 8
      ensures id !in LimitCutIds ==> limitCutNumber == old(limitCutNumber)
    {
      if id !in LimitCutIds {
        return;
      }
      limitCutNumber := LimitCutNumber(id);
    }
  }

  datatype Dir = North | East | South | West

  /** The output key a direction is looked up under. */
  function Key(d: Dir): string
  {
    match d
    case North => "dirN"
    case East => "dirE"
    case South => "dirS"
    case West => "dirW"
  }

  function Opposite(d: Dir): Dir
  {
    match d
    case North => South
    case East => West
    case South => North
    case West => East
  }

  /** Where each number goes when the chase starts on the east side. */
  const StartEast: map<int, Dir> := map[
    1 := East, 2 := South, 3 := West, 4 := North,
    5 := East, 6 := South, 7 := West, 8 := North]

  /** Where each number goes when the chase starts on the west side. */
  const StartWest: map<int, Dir> := map[
    1 := West, 2 := South, 3 := East, 4 := North,
    5 := West, 6 := South, 7 := East, 8 := North]

  /** The table for the cast: ability `ABB3` starts east, anything else west. */
  function DirectionsFor(abilityId: string): (t: map<int, Dir>)
    ensures t == StartEast <==> abilityId == "ABB3"
    ensures t == StartWest <==> abilityId != "ABB3"
  {
    assert StartEast[1] != StartWest[1];
    if abilityId == "ABB3" then StartEast else StartWest
  }

  /** Both tables cover exactly the numbers 1 to 8. */
  lemma DirectionDomains()
    ensures forall n :: n in StartEast <==> 1 <= n <= 8
    ensures forall n :: n in StartWest <==> 1 <= n <= 8
  {
    forall n
      ensures n in StartEast <==> 1 <= n <= 8
      ensures n in StartWest <==> 1 <= n <= 8
    {
      if 1 <= n <= 8 {
        assert n == 1 || n == 2 || n == 3 || n == 4 || n == 5 || n == 6 || n == 7 || n == 8;
      }
    }
  }

  /** Both tables repeat with period four, agree on every even number and
      send every odd number to opposite sides. */
  lemma DirectionTables()
    ensures forall n :: 1 <= n <= 4 ==> StartEast[n + 4] == StartEast[n] && StartWest[n + 4] == StartWest[n]
    ensures forall n :: 1 <= n <= 8 ==> (StartEast[n] == StartWest[n] <==> n % 2 == 0)
    ensures forall n :: 1 <= n <= 8 && n % 2 == 1 ==> StartWest[n] == Opposite(StartEast[n])
  {
    DirectionDomains();
    forall n | 1 <= n <= 8
      ensures (StartEast[n] == StartWest[n] <==> n % 2 == 0)
      ensures n % 2 == 1 ==> StartWest[n] == Opposite(StartEast[n])
      ensures n <= 4 ==> StartEast[n + 4] == StartEast[n] && StartWest[n + 4] == StartWest[n]
    {
      assert n == 1 || n == 2 || n == 3 || n == 4 || n == 5 || n == 6 || n == 7 || n == 8;
    }
  }

  /** What a trigger's alert shows: one of its output strings with its
      parameters. */
  datatype Alert =
    | Text(dir: string, num: int)
    | Number(num: int)
    | First(dir: string)
    | Unknown
    | LaserOnYou
    | LaserOnPlayer(player: string)

  function Lookup(t: map<int, Dir>, n: int): Option<Dir>
  {
    if n in t then Some(t[n]) else None
  }

  /** The Clamorous Chase alert as written: the numbered `text` output is
      handed the direction's output key rather than its rendered string
      (`render` stands for the locale's direction strings). */
  function ClamorousChaseAsWritten(abilityId: string, num: Option<int>, render: Dir -> string): (r: Alert)
    ensures r != Unknown
    ensures num.None? ==> r == First(render(if abilityId == "ABB3" then East else West))
    ensures num.Some? && 1 <= num.value <= 8 ==> r == Text(Key(DirectionsFor(abilityId)[num.value]), num.value)
    ensures num.Some? && !(1 <= num.value <= 8) ==> r == Number(num.value)
  {
    var directions := DirectionsFor(abilityId);
    var dir := if num.None? then Lookup(directions, 1) else Lookup(directions, num.value);
    if dir.None? then
      if num.Some? then Number(num.value) else Unknown
    else if num.None? then First(render(dir.value))
    else Text(Key(dir.value), num.value)
  }

  /** The Clamorous Chase alert with the rendered direction in both the
      `first` and the numbered `text` output. With no number recorded it
      announces where number 1 starts; with a number from 1 to 8 it gives
      that number's direction; any other number is shown bare; the unknown
      output is never produced. */
  function ClamorousChase(abilityId: string, num: Option<int>, render: Dir -> string): (r: Alert)
    ensures r != Unknown
    ensures num.None? ==> r == First(render(if abilityId == "ABB3" then East else West))
    ensures num.Some? && 1 <= num.value <= 8 ==> r == Text(render(DirectionsFor(abilityId)[num.value]), num.value)
    ensures num.Some? && !(1 <= num.value <= 8) ==> r == Number(num.value)
  {
    var directions := DirectionsFor(abilityId);
    var dir := if num.None? then Lookup(directions, 1) else Lookup(directions, num.value);
    if dir.None? then
      if num.Some? then Number(num.value) else Unknown
    else if num.None? then First(render(dir.value))
    else Text(render(dir.value), num.value)
  }

  /** Every number a limit-cut marker can record is given a direction. */
  lemma LimitCutGetsDirection(abilityId: string, id: string, render: Dir -> string)
    requires id in LimitCutIds
    ensures ClamorousChase(abilityId, LimitCutNumber(id), render).Text?
    ensures ClamorousChase(abilityId, LimitCutNumber(id), render).num == LimitCutNumber(id).value
  {
  }

  /** Number 1 is told the same direction whether or not its marker was
      recorded. */
  lemma ChaseAgreesWithFirst(abilityId: string, render: Dir -> string)
    ensures ClamorousChase(abilityId, None, render).dir == ClamorousChase(abilityId, Some(1), render).dir
  {
  }

  /** As written, the numbered output carries the output key instead of the
      rendered direction, so number 1 on an `ABB3` cast is told something
      other than what the unnumbered call says, whenever the locale's string
      for east is not the key itself. */
  lemma ChaseAsWrittenShowsKey(render: Dir -> string)
    requires render(East) != Key(East)
    ensures ClamorousChaseAsWritten("ABB3", Some(1), render) == Text("dirE", 1)
    ensures ClamorousChaseAsWritten("ABB3", None, render).dir != ClamorousChaseAsWritten("ABB3", Some(1), render).dir
  {
  }

  /** The Laser Target alert: the player is told when they are the target,
      otherwise who is (`member` stands for the party's name lookup). */
  function LaserTarget(me: string, target: string, member: string -> string): (r: Alert)
    ensures r == LaserOnYou <==> target == me
    ensures r.LaserOnPlayer? <==> target != me
    ensures r.LaserOnPlayer? ==> r.player == member(target)
  {
    if target == me then LaserOnYou else LaserOnPlayer(member(target))
  }
}
