/**
 * The custom order of the sounds of a tab. loadSounds sorts the fetched sounds with a
 * comparator over each sound's position in the saved order (`customOrder.indexOf(path)`),
 * an unlisted sound counting as after every listed one. JavaScript's `Array.prototype.sort`
 * is stable, so the result is the unique stable sort by that position, which the
 * StableSort module computes.
 *
 * A `null` entry in the fetched list would make the browser's comparator throw on
 * `a.path`; the model ranks it last instead. The server's listings never contain null.
 */
module SoundOrder {
  import opened Json
  import StableSort

  /** The position of the sound's path in the order, or -1 (also for a sound without a path). */
  function PathIndex(order: seq<Json>, sound: Json): (i: int)
    ensures -1 <= i < |order|
    ensures i >= 0 <==> Prop(sound, "path").Some? && Prop(sound, "path").value in order
  {
    var p := Prop(sound, "path");
    if p.Some? then IndexOf(order, p.value) else -1
  }

  /** The comparator of loadSounds, as written. */
  function Compare(order: seq<Json>, a: Json, b: Json): int {
    var ia := PathIndex(order, a);
    var ib := PathIndex(order, b);
    if ia == -1 && ib == -1 then 0
    else if ia == -1 then 1
    else if ib == -1 then -1
    else ia - ib
  }

  /** A sound's rank: its position in the order, or |order| when it is not listed. */
  function Rank(order: seq<Json>, sound: Json): (r: nat)
    ensures r <= |order|
    ensures r < |order| <==> PathIndex(order, sound) >= 0
  {
    var i := PathIndex(order, sound);
    if i == -1 then |order| else i
  }

  /** The comparator orders sounds exactly as their ranks do, so it is a consistent total preorder. */
  lemma CompareIsRankOrder(order: seq<Json>, a: Json, b: Json)
    ensures Compare(order, a, b) < 0 <==> Rank(order, a) < Rank(order, b)
    ensures Compare(order, a, b) == 0 <==> Rank(order, a) == Rank(order, b)
    ensures Compare(order, a, b) > 0 <==> Rank(order, a) > Rank(order, b)
  {
  }

  /** The rank as a function value, for the generic sort. */
  function RankOf(order: seq<Json>): (rank: Json -> nat)
    ensures forall s :: rank(s) == Rank(order, s)
  {
    s => Rank(order, s)
  }

  /** loadSounds' reordering: only a saved order that is an array sorts the sounds, and
      then stably by their position in it. */
  function ApplyCustomOrder(sounds: seq<Json>, customOrder: Json): (r: seq<Json>)
    ensures !customOrder.JArr? ==> r == sounds
    ensures multiset(r) == multiset(sounds)
    ensures customOrder.JArr? ==> StableSort.SortedByRank(RankOf(customOrder.items), r)
  {
    if customOrder.JArr? then StableSort.Sort(RankOf(customOrder.items), sounds) else sounds
  }

  /** The reordering is stable: sounds at the same position of the order (in particular
      all unlisted sounds) keep their relative order. */
  lemma CustomOrderStable(sounds: seq<Json>, order: seq<Json>, n: nat)
    ensures StableSort.WithRank(RankOf(order), ApplyCustomOrder(sounds, JArr(order)), n)
         == StableSort.WithRank(RankOf(order), sounds, n)
  {
    StableSort.SortStable(RankOf(order), sounds, n);
  }

  /** In the reordered list no unlisted sound comes before a listed one, and listed sounds
      follow the order. */
  lemma ListedFirst(sounds: seq<Json>, order: seq<Json>, i: int, j: int)
    requires 0 <= i < j < |ApplyCustomOrder(sounds, JArr(order))|
    ensures var r := ApplyCustomOrder(sounds, JArr(order));
            && (PathIndex(order, r[j]) >= 0 ==> 0 <= PathIndex(order, r[i]) <= PathIndex(order, r[j]))
  {
    var r := ApplyCustomOrder(sounds, JArr(order));
    assert RankOf(order)(r[i]) <= RankOf(order)(r[j]);
  }
}
