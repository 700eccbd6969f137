/** Operating-scale selection: the tier is chosen by demand thresholds among
    the tiers the airline operates, and the tier's resource table supplies
    seats, crew, turnaround times and a personnel index looked up in a bucket
    table by demand. */
module OperationScale {
  import opened Common
  import opened Profiles

  datatype Scale = Large | Medium | Small

  /** The name a scale has in the resource data and in profiles. */
  function ScaleKey(s: Scale): string {
    match s
    case Large => LargeScaleKey
    case Medium => MediumScaleKey
    case Small => SmallScaleKey
  }

  /** Small < Medium < Large. */
  function Rank(s: Scale): nat {
    match s
    case Small => 0
    case Medium => 1
    case Large => 2
  }

  /** The operating scale for a demand: large when offered and demand is over
      300, else medium when offered and demand is over 150, else small
      (whether or not small is offered). */
  function SelectScale(demand: int, offered: seq<string>): (s: Scale)
    ensures s != Small ==> ScaleKey(s) in offered
    ensures s == Large ==> demand > 300
    ensures s == Medium ==> demand > 150
    ensures LargeScaleKey in offered && demand > 300 ==> s == Large
    ensures MediumScaleKey in offered && demand > 150 ==> s != Small
  {
    if LargeScaleKey in offered && demand > 300 then Large
    else if MediumScaleKey in offered && demand > 150 then Medium
    else Small
  }

  /** For a fixed set of offered scales, more demand never selects a
      smaller scale. */
  lemma SelectScaleMonotone(d1: int, d2: int, offered: seq<string>)
    requires d1 <= d2
    ensures Rank(SelectScale(d1, offered)) <= Rank(SelectScale(d2, offered))
  {
  }

  /** One row of a personnel table: demands up to `maxPassengers` need
      `personnelIndex`. */
  datatype Bucket = Bucket(maxPassengers: int, personnelIndex: int)

  /** The position of the first bucket whose `maxPassengers` covers the
      demand, or `|table|` when none does. */
  function FirstFit(demand: int, table: seq<Bucket>): (k: nat)
    ensures k <= |table|
    ensures forall j :: 0 <= j < k ==> demand > table[j].maxPassengers
    ensures k < |table| ==> demand <= table[k].maxPassengers
  {
    if |table| == 0 then 0
    else if demand <= table[0].maxPassengers then 0
    else 1 + FirstFit(demand, table[1..])
  }

  /** The personnel index for a demand: the index of the first bucket that
      covers it; a demand beyond every bucket gets the last bucket's index.
      An empty table has no last bucket, which is an error (`None`). */
  function PersonnelIndex(demand: int, table: seq<Bucket>): (r: Option<int>)
    ensures r.Some? <==> |table| > 0
    ensures forall j :: (0 <= j < |table| && demand <= table[j].maxPassengers &&
                         (forall i :: 0 <= i < j ==> demand > table[i].maxPassengers)) ==>
              r == Some(table[j].personnelIndex)
    ensures |table| > 0 && (forall i :: 0 <= i < |table| ==> demand > table[i].maxPassengers) ==>
              r == Some(table[|table| - 1].personnelIndex)
  {
    if |table| == 0 then None
    else
      var k := FirstFit(demand, table);
      if k < |table| then Some(table[k].personnelIndex)
      else Some(table[|table| - 1].personnelIndex)
  }

  /** Buckets in ascending order of capacity and of personnel index. */
  predicate Ascending(table: seq<Bucket>) {
    forall i, j :: 0 <= i < j < |table| ==>
      table[i].maxPassengers <= table[j].maxPassengers &&
      table[i].personnelIndex <= table[j].personnelIndex
  }

  lemma FirstFitMonotone(d1: int, d2: int, table: seq<Bucket>)
    requires d1 <= d2 && Ascending(table)
    ensures FirstFit(d1, table) <= FirstFit(d2, table)
  {
  }

  /** On an ascending table more demand never needs a smaller personnel index. */
  lemma PersonnelIndexMonotone(d1: int, d2: int, table: seq<Bucket>)
    requires d1 <= d2 && Ascending(table) && |table| > 0
    ensures PersonnelIndex(d1, table).value <= PersonnelIndex(d2, table).value
  {
    FirstFitMonotone(d1, d2, table);
  }

  /** The static resource data of one scale. */
  datatype ScaleSpec = ScaleSpec(
    seats: int,
    minViableRevenue: int,
    captains: int,
    firstOfficers: int,
    personnelTable: seq<Bucket>,
    turnaroundPre: int,
    turnaroundPost: int)

  /** An airline's resource data: the scales it operates and their specs. */
  datatype ResourceData = ResourceData(offeredScales: seq<string>, specs: map<string, ScaleSpec>)

  datatype Assignment = Assignment(
    scale: Scale,
    seats: int,
    minViableRevenue: int,
    crew: (int, int),
    personnelIndex: int,
    turnaroundPre: int,
    turnaroundPost: int)

  /** The scale assignment for an optimal demand. A chosen scale missing from
      the specs, or with an empty personnel table, is an error (`None`). */
  function DetermineOperationScale(demand: int, data: ResourceData): (r: Option<Assignment>)
    ensures var key := ScaleKey(SelectScale(demand, data.offeredScales));
            r.Some? <==> key in data.specs && |data.specs[key].personnelTable| > 0
    ensures r.Some? ==>
              var scale := SelectScale(demand, data.offeredScales);
              var spec := data.specs[ScaleKey(scale)];
              && r.value.scale == scale
              && r.value.seats == spec.seats
              && r.value.minViableRevenue == spec.minViableRevenue
              && r.value.crew == (spec.captains, spec.firstOfficers)
              && Some(r.value.personnelIndex) == PersonnelIndex(demand, spec.personnelTable)
              && r.value.turnaroundPre == spec.turnaroundPre
              && r.value.turnaroundPost == spec.turnaroundPost
  {
    var scale := SelectScale(demand, data.offeredScales);
    var key := ScaleKey(scale);
    if key !in data.specs then None
    else
      var spec := data.specs[key];
      match PersonnelIndex(demand, spec.personnelTable)
      case None => None
      case Some(index) =>
        Some(Assignment(scale, spec.seats, spec.minViableRevenue,
                        (spec.captains, spec.firstOfficers), index,
                        spec.turnaroundPre, spec.turnaroundPost))
  }

  /** The resource weight of an assignment, aircraft : personnel : time =
      5 : 3 : 2, the denominator of the priority score's efficiency term. */
  function WeightedResources(a: Assignment): int {
    a.seats * 5 + a.personnelIndex * 3 + (a.turnaroundPre + a.turnaroundPost) * 2
  }

  /** With at least one seat and no negative resource the weight is positive,
      so the efficiency division is defined, and it grows with each resource. */
  lemma WeightedResourcesPositive(a: Assignment, b: Assignment)
    requires a.seats >= 1 && a.personnelIndex >= 0 && a.turnaroundPre >= 0 && a.turnaroundPost >= 0
    requires a.seats <= b.seats && a.personnelIndex <= b.personnelIndex
    requires a.turnaroundPre + a.turnaroundPost <= b.turnaroundPre + b.turnaroundPost
    ensures WeightedResources(a) >= 5
    ensures WeightedResources(a) <= WeightedResources(b)
  {
  }
}
