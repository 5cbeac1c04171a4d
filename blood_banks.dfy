/** The blood-bank controller: the inventory merge, the paged directory with
    its blood-group filter, the search by blood type and the availability
    summary. The bank store is a sequence of bank documents in name order. */
module BloodBanks {
  import opened Common
  import opened JsText
  import Compatibility
  import Models

  datatype BankError = BankNotFound | InvalidInventory | MissingBloodGroup | InvalidMinUnits

  // ---------------------------------------------------------------------------
  // updateBloodInventory

  /** The value the last supplied pair for `t` carries, if any. */
  function LastSupplied(supplied: seq<(string, int)>, t: string): (v: Option<int>)
    ensures v.Some? <==> exists i :: 0 <= i < |supplied| && supplied[i].0 == t
    decreases |supplied|
  {
    if supplied == [] then None
    else if supplied[|supplied| - 1].0 == t then Some(supplied[|supplied| - 1].1)
    else
      var init := supplied[..|supplied| - 1];
      assert forall i :: 0 <= i < |init| ==> init[i] == supplied[i];
      LastSupplied(init, t)
  }

  /** The supplied counts written over the inventory: a key the inventory
      already has takes the last value supplied for it; every other key keeps
      its count, and a key the inventory lacks is ignored. */
  function Merge(inventory: map<string, int>, supplied: seq<(string, int)>): (m: map<string, int>)
    ensures m.Keys == inventory.Keys
    ensures forall t :: t in inventory ==>
              m[t] == match LastSupplied(supplied, t) case Some(v) => v case None => inventory[t]
    decreases |supplied|
  {
    if supplied == [] then inventory
    else
      var before := Merge(inventory, supplied[..|supplied| - 1]);
      var (t, v) := supplied[|supplied| - 1];
      if t in before then before[t := v] else before
  }

  /** The schema's `min: 0` on every counter. */
  predicate NonNegative(inventory: map<string, int>)
  {
    forall t :: t in inventory ==> inventory[t] >= 0
  }

  /** `updateBloodInventory`. `supplied` is `req.body.bloodInventory` as
      key/value pairs in key order (`None` when absent). The counts are merged
      into a copy of the inventory and the update time is set; the document
      is stored only when the schema accepts every count. */
  method UpdateBloodInventory(bank: Models.BloodBank?, supplied: Option<seq<(string, int)>>, now: int)
    returns (r: Result<Models.BloodBank, BankError>)
    requires bank != null ==> bank.Valid()
    modifies bank
    ensures bank == null ==> r == Err(BankNotFound)
    ensures bank != null ==>
      var merged := Merge(old(bank.inventory), if supplied.Some? then supplied.value else []);
      && (r.Ok? <==> NonNegative(merged))
      && (r.Ok? ==> r.value == bank && bank.inventory == merged && bank.lastInventoryUpdate == Some(now) && bank.Valid())
      && (r.Err? ==> r == Err(InvalidInventory) && unchanged(bank))
  {
    if bank == null {
      return Err(BankNotFound);
    }
    var pairs := if supplied.Some? then supplied.value else [];
    var inventory := bank.inventory;
    for i := 0 to |pairs|
      invariant inventory == Merge(bank.inventory, pairs[..i])
    {
      assert pairs[..i + 1][..i] == pairs[..i];
      var (t, v) := pairs[i];
      if t in inventory {
        inventory := inventory[t := v];
      }
    }
    assert pairs[..|pairs|] == pairs;
    if exists t :: t in inventory && inventory[t] < 0 {
      return Err(InvalidInventory);
    }
    bank.inventory := inventory;
    bank.lastInventoryUpdate := Some(now);
    r := Ok(bank);
  }

  /** An update that supplies no inventory changes no count, and one that
      supplies only unknown keys changes none either. */
  lemma {:induction false} MergeOfUnknownKeys(inventory: map<string, int>, supplied: seq<(string, int)>)
    requires forall i :: 0 <= i < |supplied| ==> supplied[i].0 !in inventory
    ensures Merge(inventory, supplied) == inventory
    decreases |supplied|
  {
    if supplied != [] {
      MergeOfUnknownKeys(inventory, supplied[..|supplied| - 1]);
    }
  }

  // ---------------------------------------------------------------------------
  // getAllBloodBanks

  /** The query of the directory: active banks, in a district matching the
      given one case-insensitively when one is given. */
  predicate Listed(b: Models.BloodBank, district: string)
  {
    b.isActive && (district != "" ==> MatchesIgnoreCase(b.district, district))
  }

  function ListedBanks(banks: seq<Models.BloodBank>, district: string): (found: seq<Models.BloodBank>)
    ensures IsSubsequence(found, banks)
    ensures forall i :: 0 <= i < |found| ==> found[i] in banks && Listed(found[i], district)
    ensures forall i :: 0 <= i < |banks| && Listed(banks[i], district) ==> banks[i] in found
  {
    if banks == [] then []
    else if Listed(banks[0], district) then [banks[0]] + ListedBanks(banks[1..], district)
    else ListedBanks(banks[1..], district)
  }

  /** The bank holds some units of the group: `inventory[group] && inventory[group] > 0`. */
  predicate Stocks(b: Models.BloodBank, group: string)
    reads b
  {
    group in b.inventory && b.inventory[group] > 0
  }

  /** The blood-group filter, applied to the page already cut. */
  function WithStock(banks: seq<Models.BloodBank>, group: string): (kept: seq<Models.BloodBank>)
    reads banks
    ensures IsSubsequence(kept, banks)
    ensures forall i :: 0 <= i < |kept| ==> kept[i] in banks && Stocks(kept[i], group)
    ensures forall i :: 0 <= i < |banks| && Stocks(banks[i], group) ==> banks[i] in kept
  {
    if banks == [] then []
    else if Stocks(banks[0], group) then [banks[0]] + WithStock(banks[1..], group)
    else WithStock(banks[1..], group)
  }

  datatype Pagination = Pagination(currentPage: int, totalPages: int, totalBanks: nat, hasNext: bool, hasPrev: bool)

  /** `Math.ceil(total / limit)` for a positive limit. */
  function CeilDiv(total: nat, limit: int): (q: nat)
    requires limit >= 1
    ensures (q - 1) * limit < total <= q * limit || (total == 0 && q == 0)
  {
    (total + limit - 1) / limit
  }

  /** The page record: `page * limit < total` for the next page and
      `page > 1` for the previous one. */
  function PaginationOf(page: int, limit: int, total: nat): (p: Pagination)
    requires page >= 1 && limit >= 1
    ensures p.totalPages == CeilDiv(total, limit) && p.totalBanks == total && p.currentPage == page
    ensures p.hasNext <==> page < p.totalPages
    ensures p.hasPrev <==> page > 1
  {
    var pages := CeilDiv(total, limit);
    assert page * limit < total <==> page < pages by {
      if page * limit < total {
        assert page * limit < pages * limit;
        LessByFactor(page, pages, limit);
      }
      if page < pages {
        MonotoneByFactor(page, pages - 1, limit);
      }
    }
    Pagination(page, pages, total, page * limit < total, page > 1)
  }

  lemma LessByFactor(a: int, b: int, k: int)
    requires k >= 1 && a * k < b * k
    ensures a < b
  {
  }

  lemma MonotoneByFactor(a: int, b: int, k: int)
    requires k >= 1 && a <= b
    ensures a * k <= b * k
  {
    assert b * k - a * k == (b - a) * k;
  }

  /** `(page - 1) * limit`, the number of listed banks before the page. */
  function Skip(page: int, limit: int): (n: nat)
    requires page >= 1 && limit >= 1
    ensures n + limit == page * limit
  {
    MonotoneByFactor(0, page - 1, limit);
    (page - 1) * limit
  }

  /** The `.skip(skip).limit(limit)` window over the listed banks: the banks at
      positions `Skip(page, limit)` up to, but excluding, `page * limit`, as
      far as the listing reaches. */
  function PageOf(listed: seq<Models.BloodBank>, page: int, limit: int): (onPage: seq<Models.BloodBank>)
    requires page >= 1 && limit >= 1
    ensures |onPage| == if Skip(page, limit) >= |listed| then 0
                        else if |listed| - Skip(page, limit) < limit then |listed| - Skip(page, limit)
                        else limit
    ensures forall i :: 0 <= i < |onPage| ==> onPage[i] == listed[Skip(page, limit) + i]
  {
    var from := if Skip(page, limit) < |listed| then Skip(page, limit) else |listed|;
    var to := if from + limit < |listed| then from + limit else |listed|;
    listed[from..to]
  }

  /** The pages cover the listing: the bank at position `k` is on page
      `k / limit + 1`, at position `k % limit` of that page. */
  lemma ListedBankOnItsPage(listed: seq<Models.BloodBank>, limit: int, k: int)
    requires limit >= 1 && 0 <= k < |listed|
    ensures var page := k / limit + 1;
            k % limit < |PageOf(listed, page, limit)| && PageOf(listed, page, limit)[k % limit] == listed[k]
  {
    var page := k / limit + 1;
    assert Skip(page, limit) == (k / limit) * limit;
    assert k == (k / limit) * limit + k % limit;
  }

  /** `getAllBloodBanks(page, limit, district, bloodGroup)`: the page of the
      listed banks, then the blood-group filter over that page only; the
      total counts every listed bank, whatever the blood group. */
  function GetAllBloodBanks(banks: seq<Models.BloodBank>, page: int, limit: int, district: string, bloodGroup: string)
    : (r: (seq<Models.BloodBank>, Pagination))
    requires page >= 1 && limit >= 1
    reads banks
    ensures |r.0| <= limit
    ensures bloodGroup != "" ==> forall i :: 0 <= i < |r.0| ==> Stocks(r.0[i], bloodGroup)
    ensures forall i :: 0 <= i < |r.0| ==> r.0[i] in banks && Listed(r.0[i], district)
    ensures r.1 == PaginationOf(page, limit, |ListedBanks(banks, district)|)
    ensures bloodGroup == "" ==> r.0 == PageOf(ListedBanks(banks, district), page, limit)
    ensures bloodGroup != "" ==> r.0 == WithStock(PageOf(ListedBanks(banks, district), page, limit), bloodGroup)
  {
    var listed := ListedBanks(banks, district);
    var onPage := PageOf(listed, page, limit);
    assert forall i :: 0 <= i < |onPage| ==> onPage[i] in listed;
    var shown := if bloodGroup != "" then WithStock(onPage, bloodGroup) else onPage;
    assert |shown| <= |onPage| by { if bloodGroup != "" { SubsequenceLength(shown, onPage); } }
    (shown, PaginationOf(page, limit, |listed|))
  }

  lemma {:induction false} SubsequenceLength(sub: seq<Models.BloodBank>, s: seq<Models.BloodBank>)
    requires IsSubsequence(sub, s)
    ensures |sub| <= |s|
    decreases |s|
  {
    if sub != [] {
      if sub[0] == s[0] { SubsequenceLength(sub[1..], s[1..]); }
      else { SubsequenceLength(sub, s[1..]); }
    }
  }

  /** The blood group narrows the page but never the counts: two queries
      differing only in the group report the same pagination. */
  lemma PaginationIgnoresGroup(banks: seq<Models.BloodBank>, page: int, limit: int, district: string, g1: string, g2: string)
    requires page >= 1 && limit >= 1
    ensures GetAllBloodBanks(banks, page, limit, district, g1).1 == GetAllBloodBanks(banks, page, limit, district, g2).1
  {
  }

  // ---------------------------------------------------------------------------
  // searchBloodBanksByType

  /** The threshold `parseInt(minUnits)`, with `1` when it is absent; `None`
      when the string reads as no number (`NaN`), which the query's number
      cast rejects. */
  function MinUnits(minUnits: Option<string>): Option<int>
  {
    match minUnits
    case None => Some(1)
    case Some(s) => ParseInt(s)
  }

  predicate HoldsAtLeast(b: Models.BloodBank, group: string, threshold: int, district: string)
    reads b
  {
    && Listed(b, district)
    && group in b.inventory && b.inventory[group] >= threshold
  }

  function BanksHolding(banks: seq<Models.BloodBank>, group: string, threshold: int, district: string)
    : (found: seq<Models.BloodBank>)
    reads banks
    ensures IsSubsequence(found, banks)
    ensures forall i :: 0 <= i < |found| ==> found[i] in banks && HoldsAtLeast(found[i], group, threshold, district)
    ensures forall i :: 0 <= i < |banks| && HoldsAtLeast(banks[i], group, threshold, district) ==> banks[i] in found
  {
    if banks == [] then []
    else if HoldsAtLeast(banks[0], group, threshold, district)
    then [banks[0]] + BanksHolding(banks[1..], group, threshold, district)
    else BanksHolding(banks[1..], group, threshold, district)
  }

  /** `searchBloodBanksByType`: a blood group is required. For one of the
      eight inventory counters, a `minUnits` that reads as no number makes
      the cast of `$gte` fail in the catch. Any other group names no path of
      the schema: the condition goes to the database uncast and no stored
      bank has that counter, so nothing is found. */
  function SearchBloodBanksByType(banks: seq<Models.BloodBank>, bloodGroup: string, district: string, minUnits: Option<string>)
    : (r: Result<seq<Models.BloodBank>, BankError>)
    reads banks
    ensures bloodGroup == "" <==> r == Err(MissingBloodGroup)
    ensures r == Err(InvalidMinUnits) <==>
              Compatibility.IsBloodType(bloodGroup) && minUnits.Some? && ParseInt(minUnits.value).None?
    ensures bloodGroup != "" && !Compatibility.IsBloodType(bloodGroup) ==> r == Ok([])
    ensures r.Ok? && Compatibility.IsBloodType(bloodGroup) ==>
              MinUnits(minUnits).Some? && r.value == BanksHolding(banks, bloodGroup, MinUnits(minUnits).value, district)
    ensures Compatibility.IsBloodType(bloodGroup) && MinUnits(minUnits).Some? ==>
              r == Ok(BanksHolding(banks, bloodGroup, MinUnits(minUnits).value, district))
  {
    if bloodGroup == "" then Err(MissingBloodGroup)
    else if !Compatibility.IsBloodType(bloodGroup) then Ok([])
    else match MinUnits(minUnits)
      case None => Err(InvalidMinUnits)
      case Some(threshold) => Ok(BanksHolding(banks, bloodGroup, threshold, district))
  }

  /** Without `minUnits` a bank qualifies exactly when it stocks the group. */
  lemma DefaultMinUnitsIsStock(b: Models.BloodBank, group: string, district: string)
    ensures MinUnits(None) == Some(1)
    ensures HoldsAtLeast(b, group, MinUnits(None).value, district) <==> Listed(b, district) && Stocks(b, group)
  {
  }

  // ---------------------------------------------------------------------------
  // getBloodAvailabilitySummary

  datatype Summary = Summary(totalBanks: nat, units: map<string, int>)

  /** `$sum` of a counter over banks; a missing counter adds nothing. */
  function SumUnits(banks: seq<Models.BloodBank>, t: string): int
    reads banks
  {
    if banks == [] then 0
    else (if t in banks[0].inventory then banks[0].inventory[t] else 0) + SumUnits(banks[1..], t)
  }

  /** All counters at zero, for no bank at all. */
  const EmptySummary := Summary(0, map t | t in Compatibility.BloodTypes :: 0)

  /** `getBloodAvailabilitySummary(district)`: the grouped totals over the
      listed banks, or the all-zero default when the aggregation yields no
      group. */
  function AvailabilitySummary(banks: seq<Models.BloodBank>, district: string): (s: Summary)
    reads banks
    ensures s.totalBanks == |ListedBanks(banks, district)|
    ensures s.units.Keys == set t | t in Compatibility.BloodTypes
    ensures forall t :: t in s.units ==> s.units[t] == SumUnits(ListedBanks(banks, district), t)
  {
    var listed := ListedBanks(banks, district);
    if listed == [] then EmptySummary
    else Summary(|listed|, map t | t in Compatibility.BloodTypes :: SumUnits(listed, t))
  }

  /** With valid inventories no total is negative. */
  lemma {:induction false} SummaryNonNegative(banks: seq<Models.BloodBank>, t: string)
    requires forall i :: 0 <= i < |banks| ==> NonNegative(banks[i].inventory)
    ensures SumUnits(banks, t) >= 0
  {
    if banks != [] {
      SummaryNonNegative(banks[1..], t);
    }
  }
}
