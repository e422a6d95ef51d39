/**
 * `MemStorage`: two in-memory keyed collections, thumbnail requests by id and daily
 * usage rows by `<ip>-<date>`. Fresh identifiers (`randomUUID`) and the clock
 * (`new Date()`) are parameters.
 */
module Storage {

  import opened Wrappers
  import opened Schema

  /**
   * The argument of `createThumbnailRequest`: the validated insert fields plus the
   * optional outcome fields; a field the caller leaves out is `None`.
   */
  datatype NewThumbnailRequest = NewThumbnailRequest(
    prompt: string,
    style: string,
    aspectRatio: string,
    selectedModel: string,
    modelReasoning: Option<string>,
    generatedImages: Option<seq<ImageDescriptor>>,
    generationTime: Option<int>,
    qualityScore: Option<int>)

  /** `value || null` for an optional string: absent and empty both become null. */
  function OrNullString(v: Option<string>): Option<string> {
    match v
    case Some(s) => if s == [] then None else Some(s)
    case None => None
  }

  /** `value || null` for an optional number: absent and zero both become null. */
  function OrNullNumber(v: Option<int>): Option<int> {
    match v
    case Some(n) => if n == 0 then None else Some(n)
    case None => None
  }

  /** The row `createThumbnailRequest` stores for request `req` under `id` at time `now`. */
  function NewRecord(req: NewThumbnailRequest, id: string, now: int): ThumbnailRequest {
    ThumbnailRequest(
      id, req.prompt, req.style, req.aspectRatio, req.selectedModel,
      OrNullString(req.modelReasoning),
      if req.generatedImages.Some? then req.generatedImages.value else [],
      OrNullNumber(req.generationTime),
      OrNullNumber(req.qualityScore),
      now)
  }

  /**
   * The stored row copies the request's strings; each optional field is null exactly
   * when the caller gave nothing or a falsy value, and otherwise keeps the value;
   * the image list defaults to empty.
   */
  lemma NewRecordFields(req: NewThumbnailRequest, id: string, now: int)
    ensures var r := NewRecord(req, id, now);
      && r.id == id && r.createdAt == now
      && r.prompt == req.prompt && r.style == req.style && r.aspectRatio == req.aspectRatio
      && r.selectedModel == req.selectedModel
      && (r.modelReasoning == None <==> req.modelReasoning in {None, Some("")})
      && (r.modelReasoning.Some? ==> r.modelReasoning == req.modelReasoning)
      && (r.generatedImages == [] <==> req.generatedImages in {None, Some([])})
      && (req.generatedImages.Some? ==> r.generatedImages == req.generatedImages.value)
      && (r.generationTime == None <==> req.generationTime in {None, Some(0)})
      && (r.generationTime.Some? ==> r.generationTime == req.generationTime)
      && (r.qualityScore == None <==> req.qualityScore in {None, Some(0)})
      && (r.qualityScore.Some? ==> r.qualityScore == req.qualityScore)
  {
    OrNullStringNulls(req.modelReasoning);
    OrNullNumberNulls(req.generationTime);
    OrNullNumberNulls(req.qualityScore);
  }

  /** `v || null` on a string is null exactly for a missing or empty value, else the value. */
  lemma OrNullStringNulls(v: Option<string>)
    ensures OrNullString(v) == None <==> v in {None, Some("")}
    ensures OrNullString(v).Some? ==> OrNullString(v) == v
  {
  }

  /** `v || null` on a number is null exactly for a missing or zero value, else the value. */
  lemma OrNullNumberNulls(v: Option<int>)
    ensures OrNullNumber(v) == None <==> v in {None, Some(0)}
    ensures OrNullNumber(v).Some? ==> OrNullNumber(v) == v
  {
  }

  /** The daily usage key: the address, a dash, the date. */
  function UsageKey(ipAddress: string, date: string): string {
    ipAddress + "-" + date
  }

  /**
   * Keys are unambiguous for dash-free addresses (IPv4, IPv6 and `unknown` all are):
   * two pairs share a key only when they are the same pair.
   */
  lemma UsageKeyInjective(ip1: string, date1: string, ip2: string, date2: string)
    requires '-' !in ip1 && '-' !in ip2
    requires UsageKey(ip1, date1) == UsageKey(ip2, date2)
    ensures ip1 == ip2 && date1 == date2
  {
    var k := UsageKey(ip1, date1);
    assert k[|ip1|] == '-' && k[|ip2|] == '-';
    if |ip1| < |ip2| {
      assert false;
    } else if |ip2| < |ip1| {
      assert false;
    }
    assert ip1 == k[..|ip1|] == ip2;
    assert date1 == k[|ip1| + 1..] == date2;
  }

  /** An address with a dash can share its key with another pair. */
  lemma UsageKeysCanCollide()
    ensures UsageKey("a-b", "c") == UsageKey("a", "b-c")
  {
  }

  /** `usage.generationCount || 0` */
  function CountOrZero(c: Option<int>): int {
    if c.Some? then c.value else 0
  }

  /**
   * The usage table after `createOrUpdateDailyUsage(usage)`: an existing row under the
   * key gets the new count and keeps everything else; otherwise a fresh row is added.
   */
  function UpsertUsage(m: map<string, DailyUsage>, usage: InsertDailyUsage, freshId: string, now: int)
    : map<string, DailyUsage>
  {
    var key := UsageKey(usage.ipAddress, usage.date);
    if key in m then m[key := m[key].(generationCount := CountOrZero(usage.generationCount))]
    else m[key := DailyUsage(freshId, usage.ipAddress, usage.date, CountOrZero(usage.generationCount), now)]
  }

  /**
   * The usage table after `incrementDailyUsage(ip, date)`: an existing row's count goes
   * up by one; otherwise a fresh row with count 1 is added.
   */
  function IncrementUsage(m: map<string, DailyUsage>, ipAddress: string, date: string, freshId: string, now: int)
    : map<string, DailyUsage>
  {
    var key := UsageKey(ipAddress, date);
    if key in m then m[key := m[key].(generationCount := m[key].generationCount + 1)]
    else UpsertUsage(m, InsertDailyUsage(ipAddress, date, Some(1)), freshId, now)
  }

  /** A usage table in which every row sits under its own address and date. */
  predicate KeyedUsage(m: map<string, DailyUsage>) {
    forall k :: k in m ==> k == UsageKey(m[k].ipAddress, m[k].date)
  }

  /**
   * Upserting sets the key's count to the given count (or 0), leaves every other key
   * alone, keeps an existing row's id, address, date and creation time, and keeps
   * the table keyed.
   */
  lemma UpsertUsageEffect(m: map<string, DailyUsage>, usage: InsertDailyUsage, freshId: string, now: int)
    requires KeyedUsage(m)
    ensures var key := UsageKey(usage.ipAddress, usage.date);
      var m' := UpsertUsage(m, usage, freshId, now);
      && m'.Keys == m.Keys + {key}
      && m'[key].generationCount == CountOrZero(usage.generationCount)
      && (key in m ==> m'[key] == m[key].(generationCount := m'[key].generationCount))
      && (key !in m ==> m'[key] == DailyUsage(freshId, usage.ipAddress, usage.date, m'[key].generationCount, now))
      && (forall k :: k in m && k != key ==> m'[k] == m[k])
      && KeyedUsage(m')
  {
  }

  /**
   * Incrementing adds one to the key's count, where a missing row counts as 0, and
   * leaves every other key alone; an existing row keeps its id, address, date and
   * creation time, and a new row is the fresh id, the address, the date, count 1 and
   * the clock; the table stays keyed.
   */
  lemma IncrementUsageEffect(m: map<string, DailyUsage>, ipAddress: string, date: string, freshId: string, now: int)
    requires KeyedUsage(m)
    ensures var key := UsageKey(ipAddress, date);
      var m' := IncrementUsage(m, ipAddress, date, freshId, now);
      && m'.Keys == m.Keys + {key}
      && m'[key].generationCount == (if key in m then m[key].generationCount else 0) + 1
      && (key in m ==> m'[key] == m[key].(generationCount := m[key].generationCount + 1))
      && (key !in m ==> m'[key] == DailyUsage(freshId, ipAddress, date, 1, now))
      && (forall k :: k in m && k != key ==> m'[k] == m[k])
      && KeyedUsage(m')
  {
    UpsertUsageEffect(m, InsertDailyUsage(ipAddress, date, Some(1)), freshId, now);
  }

  /** `n` increments of one key in a row. */
  function IncrementTimes(m: map<string, DailyUsage>, ipAddress: string, date: string, n: nat, freshId: string, now: int)
    : map<string, DailyUsage>
  {
    if n == 0 then m else IncrementUsage(IncrementTimes(m, ipAddress, date, n - 1, freshId, now), ipAddress, date, freshId, now)
  }

  /**
   * After `n` increments the key's count has grown by exactly `n` (from 0 when it was
   * missing), and no other key has changed.
   */
  lemma {:induction false} IncrementTimesCounts(m: map<string, DailyUsage>, ipAddress: string, date: string, n: nat,
                                                freshId: string, now: int)
    requires KeyedUsage(m)
    requires n > 0
    ensures var key := UsageKey(ipAddress, date);
      var m' := IncrementTimes(m, ipAddress, date, n, freshId, now);
      && key in m'
      && m'[key].generationCount == (if key in m then m[key].generationCount else 0) + n
      && (forall k :: k in m && k != key ==> k in m' && m'[k] == m[k])
      && KeyedUsage(m')
  {
    var key := UsageKey(ipAddress, date);
    var prev := IncrementTimes(m, ipAddress, date, n - 1, freshId, now);
    if n == 1 {
      IncrementUsageEffect(m, ipAddress, date, freshId, now);
    } else {
      IncrementTimesCounts(m, ipAddress, date, n - 1, freshId, now);
      IncrementUsageEffect(prev, ipAddress, date, freshId, now);
    }
  }

  /** The in-memory store. */
  class MemStorage {
    var thumbnailRequests: map<string, ThumbnailRequest>
    var dailyUsage: map<string, DailyUsage>

    /** Every request sits under its own id and every usage row under its own key. */
    ghost predicate Valid()
      reads this
    {
      && (forall id :: id in thumbnailRequests ==> thumbnailRequests[id].id == id)
      && KeyedUsage(dailyUsage)
    }

    constructor ()
      ensures Valid()
      ensures thumbnailRequests == map[] && dailyUsage == map[]
    {
      thumbnailRequests := map[];
      dailyUsage := map[];
    }

    /** `getThumbnailRequest`: the row stored under `id`, if any. */
    function GetThumbnailRequest(id: string): (r: Option<ThumbnailRequest>)
      reads this
      requires Valid()
      ensures r.Some? <==> id in thumbnailRequests
      ensures r.Some? ==> r.value.id == id
    {
      if id in thumbnailRequests then Some(thumbnailRequests[id]) else None
    }

    /** `createThumbnailRequest`: stores and returns the new row under the id, replacing any row already there. */
    method CreateThumbnailRequest(req: NewThumbnailRequest, freshId: string, now: int)
      returns (r: ThumbnailRequest)
      requires Valid()
      modifies this
      ensures Valid()
      ensures r == NewRecord(req, freshId, now)
      ensures thumbnailRequests == old(thumbnailRequests)[freshId := r]
      ensures dailyUsage == old(dailyUsage)
      ensures GetThumbnailRequest(freshId) == Some(r)
    {
      r := ThumbnailRequest(
        freshId, req.prompt, req.style, req.aspectRatio, req.selectedModel,
        OrNullString(req.modelReasoning),
        if req.generatedImages.Some? then req.generatedImages.value else [],
        OrNullNumber(req.generationTime),
        OrNullNumber(req.qualityScore),
        now);
      thumbnailRequests := thumbnailRequests[freshId := r];
    }

    /** `getDailyUsage`: the row under the address and date's key, if any. */
    function GetDailyUsage(ipAddress: string, date: string): (r: Option<DailyUsage>)
      reads this
      requires Valid()
      ensures r.Some? <==> UsageKey(ipAddress, date) in dailyUsage
      ensures r.Some? ==> UsageKey(r.value.ipAddress, r.value.date) == UsageKey(ipAddress, date)
    {
      var key := UsageKey(ipAddress, date);
      if key in dailyUsage then Some(dailyUsage[key]) else None
    }

    /** `createOrUpdateDailyUsage`: sets the count of the key's row, creating the row if needed. */
    method CreateOrUpdateDailyUsage(usage: InsertDailyUsage, freshId: string, now: int)
      returns (r: DailyUsage)
      requires Valid()
      modifies this
      ensures Valid()
      ensures dailyUsage == UpsertUsage(old(dailyUsage), usage, freshId, now)
      ensures thumbnailRequests == old(thumbnailRequests)
      ensures GetDailyUsage(usage.ipAddress, usage.date) == Some(r)
      ensures r.generationCount == CountOrZero(usage.generationCount)
    {
      UpsertUsageEffect(dailyUsage, usage, freshId, now);
      var key := UsageKey(usage.ipAddress, usage.date);
      if key in dailyUsage {
        var existing := dailyUsage[key];
        r := existing.(generationCount := CountOrZero(usage.generationCount));
        dailyUsage := dailyUsage[key := r];
      } else {
        r := DailyUsage(freshId, usage.ipAddress, usage.date, CountOrZero(usage.generationCount), now);
        dailyUsage := dailyUsage[key := r];
      }
    }

    /** `incrementDailyUsage`: one more generation for the address on the date. */
    method IncrementDailyUsage(ipAddress: string, date: string, freshId: string, now: int)
      returns (r: DailyUsage)
      requires Valid()
      modifies this
      ensures Valid()
      ensures dailyUsage == IncrementUsage(old(dailyUsage), ipAddress, date, freshId, now)
      ensures thumbnailRequests == old(thumbnailRequests)
      ensures GetDailyUsage(ipAddress, date) == Some(r)
      ensures r.generationCount ==
        (if UsageKey(ipAddress, date) in old(dailyUsage) then old(dailyUsage)[UsageKey(ipAddress, date)].generationCount
         else 0) + 1
    {
      IncrementUsageEffect(dailyUsage, ipAddress, date, freshId, now);
      var existing := GetDailyUsage(ipAddress, date);
      if existing.Some? {
        var key := UsageKey(ipAddress, date);
        r := existing.value.(generationCount := existing.value.generationCount + 1);
        dailyUsage := dailyUsage[key := r];
      } else {
        r := CreateOrUpdateDailyUsage(InsertDailyUsage(ipAddress, date, Some(1)), freshId, now);
      }
    }
  }
}
