/** The donor store: an in-memory donor list loaded at start-up, with
    append, delete, delete-by-id and a per-group tally of donors. */
module BloodBank {
  import opened JavaTypes
  import opened Ids
  import opened Donors
  import opened GroupNames

  /** What reading the donor file yields. */
  datatype LoadOutcome =
    | Loaded(donors: seq<Donor>)
    | FileNotFound
    | ReadError(message: string)

  // ---------------------------------------------------------------------
  // Specification functions
  // ---------------------------------------------------------------------

  /** `ArrayList.remove(Object)`: drops the first element that is the same
      object as `d` (Donor has no `equals` of its own). */
  function RemoveFirst(ds: seq<Donor>, d: Donor): (r: seq<Donor>)
    ensures d !in ds ==> r == ds
    ensures d in ds ==> |r| == |ds| - 1
  {
    if ds == [] then []
    else if ds[0] == d then ds[1..]
    else [ds[0]] + RemoveFirst(ds[1..], d)
  }

  /** Removing an object whose first occurrence is at `k` cuts out exactly
      position `k` and keeps the rest in order. */
  lemma {:induction false} RemoveFirstAt(ds: seq<Donor>, k: nat)
    requires k < |ds|
    requires forall j :: 0 <= j < k ==> ds[j] != ds[k]
    ensures RemoveFirst(ds, ds[k]) == ds[..k] + ds[k + 1..]
  {
    if k > 0 {
      var tail := ds[1..];
      assert tail[k - 1] == ds[k];
      RemoveFirstAt(tail, k - 1);
      assert tail[..k - 1] + tail[k..] == ds[1..k] + ds[k + 1..];
      assert ds[..k] == [ds[0]] + ds[1..k];
    }
  }

  predicate HasDonorWithId(ds: seq<Donor>, id: Int32) {
    exists j :: 0 <= j < |ds| && ds[j].donorId == id
  }

  /** The position of the first donor with the given id. */
  function FirstIndexOfId(ds: seq<Donor>, id: Int32): (k: nat)
    requires HasDonorWithId(ds, id)
    ensures k < |ds| && ds[k].donorId == id
    ensures forall j :: 0 <= j < k ==> ds[j].donorId != id
  {
    if ds[0].donorId == id then 0
    else
      assert HasDonorWithId(ds[1..], id) by {
        var j :| 0 <= j < |ds| && ds[j].donorId == id;
        assert ds[1..][j - 1] == ds[j];
      }
      1 + FirstIndexOfId(ds[1..], id)
  }

  /** The counting a `HashMap` does under `put(k, getOrDefault(k, 0) + 1)`,
      one key after another. */
  function Tally<K>(keys: seq<K>): (m: map<K, int>)
    ensures m == map[] <==> keys == []
    ensures keys != [] ==> keys[|keys| - 1] in m
  {
    if keys == [] then map[]
    else
      var m := Tally(keys[..|keys| - 1]);
      var k := keys[|keys| - 1];
      m[k := GetOrDefault(m, k, 0) + 1]
  }

  /** How many times `k` occurs in `keys`. */
  function Occurrences<K(==)>(keys: seq<K>, k: K): (n: nat)
    ensures n <= |keys|
  {
    if keys == [] then 0
    else Occurrences(keys[..|keys| - 1], k) + (if keys[|keys| - 1] == k then 1 else 0)
  }

  /** The tally key of each donor: their normalised group. */
  function GroupKeys(ds: seq<Donor>): (keys: seq<string>)
    ensures |keys| == |ds|
    ensures forall j :: 0 <= j < |ds| ==> keys[j] == Normalize(ds[j].info.bloodGroup)
  {
    seq(|ds|, j requires 0 <= j < |ds| => Normalize(ds[j].info.bloodGroup))
  }

  /** The tally `getBloodStock` builds: one entry per normalised group,
      incremented once per donor, in list order. */
  function BloodStock(ds: seq<Donor>): (m: map<string, int>)
    ensures m == map[] <==> ds == []
  {
    Tally(GroupKeys(ds))
  }

  /** The number of donors whose normalised group is `g`. */
  function CountGroup(ds: seq<Donor>, g: string): (n: nat)
    ensures n <= |ds|
  {
    Occurrences(GroupKeys(ds), g)
  }

  /** The running maximum `loadData` keeps, starting from 0. */
  function MaxDonorId(ds: seq<Donor>): (m: Int32)
    ensures 0 <= m
    ensures forall j :: 0 <= j < |ds| ==> ds[j].donorId <= m
    ensures m == 0 || exists j :: 0 <= j < |ds| && ds[j].donorId == m
  {
    if ds == [] then 0
    else
      var m := MaxDonorId(ds[..|ds| - 1]);
      assert forall j :: 0 <= j < |ds| - 1 ==> ds[..|ds| - 1][j] == ds[j];
      if ds[|ds| - 1].donorId > m then ds[|ds| - 1].donorId else m
  }

  /** The sum of a tally's counts. */
  ghost function SumValues<K>(m: map<K, int>): int
    decreases |m|
  {
    if m == map[] then 0
    else
      var k :| k in m;
      assert |m - {k}| == |m| - 1 by { assert (m - {k}).Keys == m.Keys - {k}; }
      m[k] + SumValues(m - {k})
  }

  // ---------------------------------------------------------------------
  // Properties of the tally
  // ---------------------------------------------------------------------

  /** A tally holds exactly the keys that occur, each with its number of
      occurrences. */
  lemma {:induction false} TallyCounts<K>(keys: seq<K>, k: K)
    ensures k in Tally(keys) <==> Occurrences(keys, k) > 0
    ensures k in Tally(keys) ==> Tally(keys)[k] == Occurrences(keys, k)
  {
    if keys != [] {
      TallyCounts(keys[..|keys| - 1], k);
    }
  }

  /** A key occurs at least once iff it is one of the keys. */
  lemma {:induction false} OccurrencesPositive<K>(keys: seq<K>, k: K)
    ensures Occurrences(keys, k) > 0 <==> k in keys
  {
    if keys != [] {
      var init := keys[..|keys| - 1];
      OccurrencesPositive(init, k);
      assert keys == init + [keys[|keys| - 1]];
    }
  }

  /** Taking any one key out first leaves the same sum. */
  lemma {:induction false} SumValuesRemove<K>(m: map<K, int>, k: K)
    requires k in m
    ensures SumValues(m) == m[k] + SumValues(m - {k})
    decreases |m|
  {
    var k' :| k' in m && SumValues(m) == m[k'] + SumValues(m - {k'});
    if k' != k {
      assert |m - {k'}| == |m| - 1 by { assert (m - {k'}).Keys == m.Keys - {k'}; }
      SumValuesRemove(m - {k'}, k);
      assert |m - {k}| == |m| - 1 by { assert (m - {k}).Keys == m.Keys - {k}; }
      SumValuesRemove(m - {k}, k');
      assert m - {k'} - {k} == m - {k} - {k'};
    }
  }

  /** Overwriting one count changes the sum by the difference. */
  lemma SumValuesUpdate<K>(m: map<K, int>, k: K, v: int)
    ensures SumValues(m[k := v]) == SumValues(m) - GetOrDefault(m, k, 0) + v
  {
    var m' := m[k := v];
    SumValuesRemove(m', k);
    assert m' - {k} == m - {k};
    if k in m {
      SumValuesRemove(m, k);
    } else {
      assert m - {k} == m;
    }
  }

  /** Each key adds exactly one to a tally's total. */
  lemma {:induction false} TallyTotal<K>(keys: seq<K>)
    ensures SumValues(Tally(keys)) == |keys|
  {
    if keys != [] {
      var init := keys[..|keys| - 1];
      TallyTotal(init);
      var m := Tally(init);
      var k := keys[|keys| - 1];
      SumValuesUpdate(m, k, GetOrDefault(m, k, 0) + 1);
    }
  }

  /** Every key of `getBloodStock` is the normalised group of some donor, and
      every donor's normalised group is a key. */
  lemma BloodStockKeys(ds: seq<Donor>, g: string)
    ensures g in BloodStock(ds) <==> exists j :: 0 <= j < |ds| && Normalize(ds[j].info.bloodGroup) == g
  {
    var keys := GroupKeys(ds);
    TallyCounts(keys, g);
    OccurrencesPositive(keys, g);
    if g in keys {
      var j :| 0 <= j < |keys| && keys[j] == g;
      assert Normalize(ds[j].info.bloodGroup) == g;
    }
  }

  /** Each count is the number of donors with that normalised group, so no
      count is zero. */
  lemma BloodStockValues(ds: seq<Donor>, g: string)
    requires g in BloodStock(ds)
    ensures BloodStock(ds)[g] == CountGroup(ds, g) > 0
  {
    TallyCounts(GroupKeys(ds), g);
  }

  /** Every key is already in normal form. */
  lemma BloodStockKeysNormalized(ds: seq<Donor>, g: string)
    requires g in BloodStock(ds)
    ensures Normalize(g) == g
  {
    BloodStockKeys(ds, g);
    var j :| 0 <= j < |ds| && Normalize(ds[j].info.bloodGroup) == g;
    NormalizeIdempotent(ds[j].info.bloodGroup);
  }

  /** Every donor is counted exactly once, whatever their group: the counts
      add up to the number of donors. */
  lemma BloodStockTotal(ds: seq<Donor>)
    ensures SumValues(BloodStock(ds)) == |ds|
  {
    TallyTotal(GroupKeys(ds));
  }

  /** Re-seeding from a loaded list makes the next id larger than every
      loaded id, unless the largest loaded id is INT_MAX, where Java's
      `maxId + 1` wraps to INT_MIN. */
  lemma ReseedAboveLoaded(ds: seq<Donor>)
    ensures MaxDonorId(ds) as int < INT_MAX ==>
      forall j :: 0 <= j < |ds| ==> ds[j].donorId < Succ(MaxDonorId(ds))
    ensures MaxDonorId(ds) as int == INT_MAX ==> Succ(MaxDonorId(ds)) as int == INT_MIN
  {
  }

  // ---------------------------------------------------------------------
  // The store
  // ---------------------------------------------------------------------

  /** `loadData`: the loaded list, or an empty one when there is no file or
      it cannot be read; a non-empty list re-seeds the donor counter to its
      largest id (at least 0) plus one. */
  method LoadData(stored: LoadOutcome, donorIds: IdCounter) returns (donors: seq<Donor>)
    modifies donorIds
    ensures donors == (if stored.Loaded? then stored.donors else [])
    ensures donors != [] ==> donorIds.next == Succ(MaxDonorId(donors))
    ensures donors == [] ==> donorIds.next == old(donorIds.next)
  {
    donors := [];
    if stored.Loaded? {
      donors := stored.donors;
    }
    if donors != [] {
      var maxId: Int32 := 0;
      for i := 0 to |donors|
        invariant maxId == MaxDonorId(donors[..i])
      {
        assert donors[..i + 1][..i] == donors[..i];
        if donors[i].donorId > maxId {
          maxId := donors[i].donorId;
        }
      }
      assert donors[..|donors|] == donors;
      donorIds.SetNextId(Succ(maxId));
    }
  }

  class BloodBankModel {
    var donorList: seq<Donor>

    /** Starts from whatever the donor file held. */
    constructor (stored: LoadOutcome, donorIds: IdCounter)
      modifies donorIds
      ensures donorList == (if stored.Loaded? then stored.donors else [])
      ensures donorList != [] ==> donorIds.next == Succ(MaxDonorId(donorList))
      ensures donorList == [] ==> donorIds.next == old(donorIds.next)
    {
      var loaded := LoadData(stored, donorIds);
      donorList := loaded;
    }

    /** A copy of the list: the same donors in the same order. The copy is a
        value, so later changes to the store do not reach it. */
    method GetDonors() returns (copy: seq<Donor>)
      ensures copy == donorList
    {
      copy := donorList;
    }

    /** Appends the donor; the donors before it keep their places. */
    method AddDonor(donor: Donor)
      modifies this
      ensures donorList == old(donorList) + [donor]
      ensures |donorList| == |old(donorList)| + 1 && donorList[|donorList| - 1] == donor
      ensures forall j :: 0 <= j < |old(donorList)| ==> donorList[j] == old(donorList)[j]
    {
      donorList := donorList + [donor];
    }

    /** Removes the first occurrence of that very donor object, if any. */
    method DeleteDonor(donor: Donor)
      modifies this
      ensures donorList == RemoveFirst(old(donorList), donor)
    {
      donorList := RemoveFirst(donorList, donor);
    }

    /** Finds the first donor with the id; if there is one it is removed and
        the others keep their order, otherwise nothing changes. */
    method DeleteDonorById(id: Int32) returns (found: bool)
      modifies this
      ensures found <==> HasDonorWithId(old(donorList), id)
      ensures found ==>
        var k := FirstIndexOfId(old(donorList), id);
        donorList == old(donorList)[..k] + old(donorList)[k + 1..]
      ensures !found ==> donorList == old(donorList)
    {
      var donorToRemove: Option<Donor> := None;
      var i := 0;
      while i < |donorList|
        invariant 0 <= i <= |donorList|
        invariant donorToRemove == None
        invariant forall j :: 0 <= j < i ==> donorList[j].donorId != id
      {
        if donorList[i].donorId == id {
          donorToRemove := Some(donorList[i]);
          break;
        }
        i := i + 1;
      }

      if donorToRemove != None {
        assert HasDonorWithId(donorList, id);
        assert FirstIndexOfId(donorList, id) == i;
        RemoveFirstAt(donorList, i);
        donorList := RemoveFirst(donorList, donorToRemove.value);
        return true;
      }
      return false;
    }

    /** The donor tally, keyed by normalised group. */
    method GetBloodStock() returns (stock: map<string, int>)
      ensures stock == BloodStock(donorList)
    {
      stock := map[];
      ghost var keys := GroupKeys(donorList);
      for i := 0 to |donorList|
        invariant stock == Tally(keys[..i])
      {
        var bloodGroup := Normalize(donorList[i].info.bloodGroup);
        assert keys[..i + 1][..i] == keys[..i];
        var currentCount := GetOrDefault(stock, bloodGroup, 0);
        stock := stock[bloodGroup := currentCount + 1];
      }
      assert keys[..|donorList|] == keys;
    }
  }
}
