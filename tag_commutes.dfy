/**
 * Commute tagging: for each of the two previous UTC days, list the day's
 * activities, fetch the details of the outdoor rides, keep those recorded on
 * the configured device, and mark each kept activity as a commute on the
 * configured bike unless it already is one.
 *
 * The activity platform is a value of three functions (list, detail, update);
 * every request made is recorded, in order, as a `Call`. A request whose
 * status check raises is a `None` response; the exception then ends the run.
 */
module Commutes {
  import opened Wrappers
  import opened Calendar

  const DeviceName: string := "Garmin Forerunner 165"
  const BikeId: string := "b6207119"

  /** A JSON object member: missing, present with `null`, or present with a value. */
  datatype Field<T> = Absent | Null | Present(value: T)

  /** An entry of the activity listing. */
  datatype Summary = Summary(id: int, kind: Field<string>, trainer: Field<bool>)

  /** A detailed activity. */
  datatype Detail = Detail(id: int, deviceName: Field<string>, commute: Field<bool>, gearId: Field<string>)

  /** The form body of an update request. */
  datatype Payload = Payload(commute: bool, gearId: string)

  /**
   * The activity platform as seen by the script: the listing for an
   * `after`/`before` window, one activity's details, and the HTTP status of
   * an update. None stands for a response whose status check raises.
   */
  datatype Strava = Strava(
    listActivities: (int, int) -> Option<seq<Summary>>,
    getActivity: int -> Option<Detail>,
    putActivity: (int, Payload) -> int)

  datatype Call =
    | ListActivities(after: int, before: int)
    | GetActivity(id: int)
    | PutActivity(id: int, payload: Payload)

  /**
   * A listed activity is fetched when its type is "Ride" and its trainer flag
   * is falsy: missing, null or false.
   */
  predicate IsOutdoorRide(a: Summary)
    ensures IsOutdoorRide(a) <==>
      a.kind == Present("Ride") && (a.trainer == Absent || a.trainer == Null || a.trainer == Present(false))
  {
    a.kind == Present("Ride") && !(a.trainer.Present? && a.trainer.value)
  }

  /** Some activity of the listing with this id is an outdoor ride. */
  predicate ListedRide(listing: seq<Summary>, id: int)
  {
    exists a :: a in listing && IsOutdoorRide(a) && a.id == id
  }

  /** `detail.get("device_name", "") == device`: a missing name reads as "", a null one matches nothing. */
  predicate RecordedOn(d: Detail, device: string)
    ensures RecordedOn(d, device) <==> d.deviceName == Present(device) || (d.deviceName == Absent && device == "")
  {
    match d.deviceName
    case Absent => device == ""
    case Null => false
    case Present(name) => name == device
  }

  /** Already a commute (`commute` truthy) on the configured bike. */
  predicate AlreadyTagged(d: Detail)
  {
    d.commute == Present(true) && d.gearId == Present(BikeId)
  }

  /** The ids of the listed outdoor rides, in listing order. */
  function CandidateIds(listing: seq<Summary>): (ids: seq<int>)
    ensures |ids| <= |listing|
  {
    if listing == [] then []
    else
      var init, last := listing[..|listing| - 1], listing[|listing| - 1];
      CandidateIds(init) + (if IsOutdoorRide(last) then [last.id] else [])
  }

  /** An id is a candidate iff some listed outdoor ride carries it. */
  lemma {:induction false} CandidateIdsMembers(listing: seq<Summary>)
    ensures forall id :: id in CandidateIds(listing) <==> ListedRide(listing, id)
  {
    if listing != [] {
      var init, last := listing[..|listing| - 1], listing[|listing| - 1];
      assert listing == init + [last];
      CandidateIdsMembers(init);
    }
  }

  predicate AllFetched(ids: seq<int>, get: int -> Option<Detail>)
  {
    forall k :: 0 <= k < |ids| ==> get(ids[k]).Some?
  }

  /** The fetched details of `ids`, in order. */
  function Details(ids: seq<int>, get: int -> Option<Detail>): (ds: seq<Detail>)
    requires AllFetched(ids, get)
    ensures |ds| == |ids|
    ensures forall k :: 0 <= k < |ids| ==> ds[k] == get(ids[k]).value
  {
    if ids == [] then []
    else Details(ids[..|ids| - 1], get) + [get(ids[|ids| - 1]).value]
  }

  /** The details recorded on `device`, in order. */
  function OnDevice(ds: seq<Detail>, device: string): (r: seq<Detail>)
    ensures |r| <= |ds|
  {
    if ds == [] then []
    else
      var init, last := ds[..|ds| - 1], ds[|ds| - 1];
      OnDevice(init, device) + (if RecordedOn(last, device) then [last] else [])
  }

  /** A detail is kept iff it is one of the fetched details and was recorded on the device. */
  lemma {:induction false} OnDeviceMembers(ds: seq<Detail>, device: string)
    ensures forall d :: d in OnDevice(ds, device) <==> d in ds && RecordedOn(d, device)
  {
    if ds != [] {
      var init, last := ds[..|ds| - 1], ds[|ds| - 1];
      assert ds == init + [last];
      OnDeviceMembers(init, device);
    }
  }

  /** `xs` is `ys` with some elements left out, the rest kept in order. */
  predicate IsSubsequence<T(==)>(xs: seq<T>, ys: seq<T>)
    decreases |ys|
  {
    if xs == [] then true
    else if ys == [] then false
    else
      (xs[|xs| - 1] == ys[|ys| - 1] && IsSubsequence(xs[..|xs| - 1], ys[..|ys| - 1]))
      || IsSubsequence(xs, ys[..|ys| - 1])
  }

  lemma {:induction false} OnDeviceKeepsOrder(ds: seq<Detail>, device: string)
    ensures IsSubsequence(OnDevice(ds, device), ds)
  {
    if ds != [] {
      var init, last := ds[..|ds| - 1], ds[|ds| - 1];
      OnDeviceKeepsOrder(init, device);
      var r := OnDevice(ds, device);
      if RecordedOn(last, device) {
        assert r[..|r| - 1] == OnDevice(init, device);
      } else {
        assert r == OnDevice(init, device);
        if r != [] {
          SubsequenceOfPrefix(r, init);
        }
      }
    }
  }

  lemma {:induction false} SubsequenceOfPrefix<T>(xs: seq<T>, ys: seq<T>)
    requires xs != [] && IsSubsequence(xs, ys)
    ensures IsSubsequence(xs, ys + [xs[0]])
    decreases |ys|
  {
    // Ending `ys` with one more element keeps every way of picking `xs` out of it.
    var zs := ys + [xs[0]];
    assert zs[..|zs| - 1] == ys;
  }

  /** The outcome of the detail-fetch loop: the ids fetched, then the kept details or an abort. */
  datatype Selection = Selection(fetched: seq<int>, kept: Option<seq<Detail>>)

  /**
   * The filtering loop of `get_activities_from_device` over a listing: each
   * listed activity in turn is skipped, fetched and kept or dropped, or ends
   * the loop with a failed fetch.
   */
  function Select(listing: seq<Summary>, get: int -> Option<Detail>, device: string): Selection
    decreases |listing|
  {
    if listing == [] then Selection([], Some([]))
    else SelectNext(Select(listing[..|listing| - 1], get, device), listing[|listing| - 1], get, device)
  }

  /**
   * What the filtering loop has achieved against the candidate ids `ids`:
   * the ids fetched are a prefix of them; the loop completes iff every one
   * was fetched successfully, and then holds the details recorded on
   * `device`, in order; otherwise it stopped at the first failed fetch.
   */
  predicate SelectsFrom(ids: seq<int>, get: int -> Option<Detail>, device: string, s: Selection)
  {
    && s.fetched <= ids
    && (s.kept.Some? <==> s.fetched == ids && AllFetched(s.fetched, get))
    && (s.kept.None? ==>
          s.fetched != [] && AllFetched(s.fetched[..|s.fetched| - 1], get) && get(s.fetched[|s.fetched| - 1]).None?)
    && (s.kept.Some? ==> AllFetched(s.fetched, get) && s.kept.value == OnDevice(Details(s.fetched, get), device))
  }

  /**
   * Only outdoor rides are fetched, in listing order, and the loop stops at
   * the first fetch that fails. It completes iff every outdoor ride was
   * fetched successfully, and then the result is the details recorded on
   * `device`, in listing order.
   */
  lemma {:induction false} SelectSpec(listing: seq<Summary>, get: int -> Option<Detail>, device: string)
    ensures SelectsFrom(CandidateIds(listing), get, device, Select(listing, get, device))
    decreases |listing|
  {
    if listing != [] {
      var init, last := listing[..|listing| - 1], listing[|listing| - 1];
      SelectSpec(init, get, device);
      SelectsFromNext(CandidateIds(init), Select(init, get, device), last, get, device);
    }
  }

  /** One turn of the loop extends the candidates by the listed activity, if it is an outdoor ride. */
  lemma SelectsFromNext(ids: seq<int>, prev: Selection, a: Summary, get: int -> Option<Detail>, device: string)
    requires SelectsFrom(ids, get, device, prev)
    ensures SelectsFrom(ids + (if IsOutdoorRide(a) then [a.id] else []), get, device, SelectNext(prev, a, get, device))
  {
    if !IsOutdoorRide(a) {
      assert ids + [] == ids;
    } else if prev.kept.None? {
      assert prev.fetched <= ids + [a.id];
      assert prev.fetched != ids + [a.id];
    } else {
      SelectsFromFetch(ids, prev, a, get, device);
    }
  }

  lemma SelectsFromFetch(ids: seq<int>, prev: Selection, a: Summary, get: int -> Option<Detail>, device: string)
    requires SelectsFrom(ids, get, device, prev) && prev.kept.Some? && IsOutdoorRide(a)
    ensures SelectsFrom(ids + [a.id], get, device, SelectNext(prev, a, get, device))
  {
    var s := SelectNext(prev, a, get, device);
    assert s.fetched == ids + [a.id];
    assert s.fetched[..|s.fetched| - 1] == ids;
    if get(a.id).Some? {
      DetailsAppend(ids, a.id, get);
      var ds := Details(s.fetched, get);
      assert ds[..|ds| - 1] == Details(ids, get);
    }
  }

  lemma DetailsAppend(ids: seq<int>, id: int, get: int -> Option<Detail>)
    requires AllFetched(ids, get) && get(id).Some?
    ensures AllFetched(ids + [id], get)
    ensures Details(ids + [id], get) == Details(ids, get) + [get(id).value]
  {
    assert (ids + [id])[..|ids|] == ids;
  }

  /** One turn of the filtering loop: skip, fetch and keep or drop, or abort. */
  function SelectNext(prev: Selection, a: Summary, get: int -> Option<Detail>, device: string): (s: Selection)
  {
    if prev.kept.None? || !IsOutdoorRide(a) then prev
    else
      var fetched := prev.fetched + [a.id];
      match get(a.id)
      case None => Selection(fetched, None)
      case Some(d) => Selection(fetched, Some(prev.kept.value + (if RecordedOn(d, device) then [d] else [])))
  }

  /** One turn of the filtering loop, from the state reached on the first `i` listed activities. */
  lemma SelectStep(listing: seq<Summary>, i: nat, get: int -> Option<Detail>, device: string,
                   fetched: seq<int>, kept: seq<Detail>)
    requires i < |listing|
    requires Select(listing[..i], get, device) == Selection(fetched, Some(kept))
    ensures var a := listing[i];
      Select(listing[..i + 1], get, device) ==
        if !IsOutdoorRide(a) then Selection(fetched, Some(kept))
        else if get(a.id).None? then Selection(fetched + [a.id], None)
        else
          var d := get(a.id).value;
          Selection(fetched + [a.id], Some(if RecordedOn(d, device) then kept + [d] else kept))
  {
    assert listing[..i + 1][..i] == listing[..i];
    assert kept + [] == kept;
  }

  /** Once the loop has aborted on a prefix of the listing, the rest changes nothing. */
  lemma {:induction false} AbortIsFinal(listing: seq<Summary>, j: nat, get: int -> Option<Detail>, device: string)
    requires j <= |listing| && Select(listing[..j], get, device).kept.None?
    ensures Select(listing, get, device) == Select(listing[..j], get, device)
    decreases |listing|
  {
    if j < |listing| {
      var init := listing[..|listing| - 1];
      assert init[..j] == listing[..j];
      AbortIsFinal(init, j, get, device);
    } else {
      assert listing[..j] == listing;
    }
  }

  /** One detail request per id, in order. */
  function GetCalls(ids: seq<int>): seq<Call>
  {
    if ids == [] then [] else GetCalls(ids[..|ids| - 1]) + [GetActivity(ids[|ids| - 1])]
  }

  lemma GetCallsAppend(ids: seq<int>, id: int)
    ensures GetCalls(ids + [id]) == GetCalls(ids) + [GetActivity(id)]
  {
    assert (ids + [id])[..|ids|] == ids;
  }

  lemma {:induction false} GetCallsAt(ids: seq<int>)
    ensures |GetCalls(ids)| == |ids|
    ensures forall k :: 0 <= k < |ids| ==> GetCalls(ids)[k] == GetActivity(ids[k])
  {
    if ids != [] {
      GetCallsAt(ids[..|ids| - 1]);
    }
  }

  /**
   * `get_activities_from_device` as a value: the kept details (None when a
   * request raised) and the requests made, the listing request first.
   */
  function DeviceActivities(api: Strava, date: Date, device: string): (r: (Option<seq<Detail>>, seq<Call>))
    ensures |r.1| >= 1 && r.1[0] == ListActivities(DayWindow(date).after, DayWindow(date).before)
    ensures forall k :: 1 <= k < |r.1| ==> r.1[k].GetActivity?
  {
    var w := DayWindow(date);
    var listCall := ListActivities(w.after, w.before);
    match api.listActivities(w.after, w.before)
    case None => (None, [listCall])
    case Some(listing) =>
      var sel := Select(listing, api.getActivity, device);
      GetCallsAt(sel.fetched);
      (sel.kept, [listCall] + GetCalls(sel.fetched))
  }

  /**
   * Only outdoor rides of the day's listing are fetched, and when the run
   * goes through, every one of them is, in listing order.
   */
  lemma FetchesOnlyOutdoorRides(api: Strava, date: Date, device: string)
    requires api.listActivities(DayWindow(date).after, DayWindow(date).before).Some?
    ensures var listing := api.listActivities(DayWindow(date).after, DayWindow(date).before).value;
      var calls := DeviceActivities(api, date, device).1;
      forall k :: 1 <= k < |calls| ==>
        calls[k].GetActivity? && ListedRide(listing, calls[k].id)
    ensures var listing := api.listActivities(DayWindow(date).after, DayWindow(date).before).value;
      var calls := DeviceActivities(api, date, device).1;
      DeviceActivities(api, date, device).0.Some? ==> calls == [calls[0]] + GetCalls(CandidateIds(listing))
  {
    var listing := api.listActivities(DayWindow(date).after, DayWindow(date).before).value;
    var sel := Select(listing, api.getActivity, device);
    var w := DayWindow(date);
    var calls := DeviceActivities(api, date, device).1;
    SelectSpec(listing, api.getActivity, device);
    assert DeviceActivities(api, date, device) == (sel.kept, [ListActivities(w.after, w.before)] + GetCalls(sel.fetched));
    GetCallsAt(sel.fetched);
    CandidateIdsMembers(listing);
    forall k | 1 <= k < |calls|
      ensures calls[k].GetActivity? && ListedRide(listing, calls[k].id)
    {
      var id := sel.fetched[k - 1];
      assert calls[k] == GetActivity(id);
      assert id in CandidateIds(listing);
    }
    if sel.kept.Some? {
      assert sel.fetched == CandidateIds(listing);
    }
  }

  /** The returned activities are recorded on the device and come in listing order. */
  lemma KeptAreOnDeviceInOrder(api: Strava, date: Date, device: string)
    requires DeviceActivities(api, date, device).0.Some?
    ensures var listing := api.listActivities(DayWindow(date).after, DayWindow(date).before).value;
      var kept := DeviceActivities(api, date, device).0.value;
      && AllFetched(CandidateIds(listing), api.getActivity)
      && kept == OnDevice(Details(CandidateIds(listing), api.getActivity), device)
      && IsSubsequence(kept, Details(CandidateIds(listing), api.getActivity))
      && (forall d :: d in kept <==> d in Details(CandidateIds(listing), api.getActivity) && RecordedOn(d, device))
  {
    var listing := api.listActivities(DayWindow(date).after, DayWindow(date).before).value;
    var sel := Select(listing, api.getActivity, device);
    var w := DayWindow(date);
    assert DeviceActivities(api, date, device).0 == sel.kept;
    SelectSpec(listing, api.getActivity, device);
    OnDeviceKeepsOrder(Details(CandidateIds(listing), api.getActivity), device);
    OnDeviceMembers(Details(CandidateIds(listing), api.getActivity), device);
  }

  /**
   * `get_activities_from_device`: list the day's activities, fetch each
   * outdoor ride's details and keep those recorded on `device`.
   */
  method GetActivitiesFromDevice(api: Strava, date: Date, device: string)
    returns (found: Option<seq<Detail>>, calls: seq<Call>)
    ensures (found, calls) == DeviceActivities(api, date, device)
  {
    var w := DayWindow(date);
    var listCall := ListActivities(w.after, w.before);
    var response := api.listActivities(w.after, w.before);
    if response.None? {
      found, calls := None, [listCall];
      return;
    }
    var activities := response.value;
    var matching: seq<Detail> := [];
    var fetchCalls: seq<Call> := [];
    ghost var fetched: seq<int> := [];
    var i := 0;
    while i < |activities|
      invariant 0 <= i <= |activities|
      invariant Select(activities[..i], api.getActivity, device) == Selection(fetched, Some(matching))
      invariant fetchCalls == GetCalls(fetched)
    {
      var activity := activities[i];
      SelectStep(activities, i, api.getActivity, device, fetched, matching);
      if !IsOutdoorRide(activity) {
        i := i + 1;
        continue;
      }
      GetCallsAppend(fetched, activity.id);
      fetchCalls := fetchCalls + [GetActivity(activity.id)];
      fetched := fetched + [activity.id];
      var detail := api.getActivity(activity.id);
      if detail.None? {
        AbortIsFinal(activities, i + 1, api.getActivity, device);
        found, calls := None, [listCall] + fetchCalls;
        return;
      }
      var d := detail.value;
      if RecordedOn(d, device) {
        matching := matching + [d];
      }
      i := i + 1;
    }
    assert activities[..i] == activities;
    found, calls := Some(matching), [listCall] + fetchCalls;
  }

  /**
   * `update_activity`: one update request marking the activity as a commute
   * on `gearId`; it succeeds exactly when the status is 200.
   */
  method UpdateActivity(api: Strava, id: int, gearId: string) returns (ok: bool, call: Call)
    ensures call == PutActivity(id, Payload(true, gearId))
    ensures ok <==> api.putActivity(id, Payload(true, gearId)) == 200
  {
    var payload := Payload(true, gearId);
    call := PutActivity(id, payload);
    var status := api.putActivity(id, payload);
    ok := status == 200;
  }

  /**
   * The update requests for a list of kept activities: one per activity
   * that is not already a commute on the configured bike, in order.
   */
  function UpdateCalls(ms: seq<Detail>): (cs: seq<Call>)
    ensures |cs| <= |ms|
  {
    if ms == [] then []
    else
      var init, last := ms[..|ms| - 1], ms[|ms| - 1];
      UpdateCalls(init) + (if AlreadyTagged(last) then [] else [PutActivity(last.id, Payload(true, BikeId))])
  }

  /**
   * An update request is issued for exactly the kept activities that are not
   * already a commute on the bike, always with the commute-on-bike body.
   */
  lemma {:induction false} UpdateCallsMembers(ms: seq<Detail>)
    ensures forall c :: c in UpdateCalls(ms) <==>
      exists d :: d in ms && !AlreadyTagged(d) && c == PutActivity(d.id, Payload(true, BikeId))
  {
    if ms != [] {
      var init, last := ms[..|ms| - 1], ms[|ms| - 1];
      assert ms == init + [last];
      UpdateCallsMembers(init);
    }
  }

  /**
   * With distinct activity ids, each kept activity gets exactly one update
   * request, unless it is already a commute on the bike, which gets none.
   */
  lemma {:induction false} OneUpdatePerActivity(ms: seq<Detail>, k: nat)
    requires k < |ms|
    requires forall i, j :: 0 <= i < j < |ms| ==> ms[i].id != ms[j].id
    ensures multiset(UpdateCalls(ms))[PutActivity(ms[k].id, Payload(true, BikeId))]
      == if AlreadyTagged(ms[k]) then 0 else 1
    decreases |ms|
  {
    var init, last := ms[..|ms| - 1], ms[|ms| - 1];
    var call := PutActivity(ms[k].id, Payload(true, BikeId));
    if k < |ms| - 1 {
      OneUpdatePerActivity(init, k);
      assert last.id != ms[k].id;
    } else {
      NoUpdateForAbsentId(init, last.id);
    }
  }

  lemma {:induction false} NoUpdateForAbsentId(ms: seq<Detail>, id: int)
    requires forall d :: d in ms ==> d.id != id
    ensures multiset(UpdateCalls(ms))[PutActivity(id, Payload(true, BikeId))] == 0
  {
    UpdateCallsMembers(ms);
    var c := PutActivity(id, Payload(true, BikeId));
    assert c !in UpdateCalls(ms);
  }

  /** What the run reported for one kept activity. */
  datatype Report = AlreadyCommute(id: int) | Tagged(id: int) | UpdateFailed(id: int)

  /** What the run reports for one kept activity. */
  function ReportFor(d: Detail, api: Strava): (r: Report)
    ensures r.id == d.id
    ensures r.AlreadyCommute? <==> AlreadyTagged(d)
    ensures r.Tagged? <==> !AlreadyTagged(d) && api.putActivity(d.id, Payload(true, BikeId)) == 200
  {
    if AlreadyTagged(d) then AlreadyCommute(d.id)
    else if api.putActivity(d.id, Payload(true, BikeId)) == 200 then Tagged(d.id)
    else UpdateFailed(d.id)
  }

  /** One report per kept activity, in order. */
  function Reports(ms: seq<Detail>, api: Strava): (rs: seq<Report>)
    ensures |rs| == |ms|
  {
    if ms == [] then [] else Reports(ms[..|ms| - 1], api) + [ReportFor(ms[|ms| - 1], api)]
  }

  /**
   * The report of each kept activity names it; it is a skip iff the activity
   * is already a commute on the bike, and otherwise a success iff the update
   * returned status 200.
   */
  lemma {:induction false} ReportsClassify(ms: seq<Detail>, api: Strava)
    ensures forall k :: 0 <= k < |ms| ==> Reports(ms, api)[k].id == ms[k].id
    ensures forall k :: 0 <= k < |ms| ==> (Reports(ms, api)[k].AlreadyCommute? <==> AlreadyTagged(ms[k]))
    ensures forall k :: 0 <= k < |ms| ==>
      (Reports(ms, api)[k].Tagged? <==> !AlreadyTagged(ms[k]) && api.putActivity(ms[k].id, Payload(true, BikeId)) == 200)
  {
    if ms != [] {
      ReportsClassify(ms[..|ms| - 1], api);
    }
  }

  /** One turn of the update loop. */
  lemma DecideStep(ms: seq<Detail>, i: nat, api: Strava)
    requires i < |ms|
    ensures UpdateCalls(ms[..i + 1]) ==
      UpdateCalls(ms[..i]) + if AlreadyTagged(ms[i]) then [] else [PutActivity(ms[i].id, Payload(true, BikeId))]
    ensures Reports(ms[..i + 1], api) == Reports(ms[..i], api) + [ReportFor(ms[i], api)]
  {
    assert ms[..i + 1][..i] == ms[..i];
  }

  /** The effect of one day's run; `completed` is false when a request raised. */
  datatype DayRun = DayRun(calls: seq<Call>, reports: seq<Report>, completed: bool)

  /** `tag_commutes_for_date` as a value. */
  function TagDay(api: Strava, date: Date): (run: DayRun)
    ensures |run.calls| >= 1 && run.calls[0] == ListActivities(DayWindow(date).after, DayWindow(date).before)
  {
    var (found, calls) := DeviceActivities(api, date, DeviceName);
    match found
    case None => DayRun(calls, [], false)
    case Some(ms) => DayRun(calls + UpdateCalls(ms), Reports(ms, api), true)
  }

  /**
   * Every update request of a day's run marks as a commute on the bike an
   * activity that was kept for the device and is not already such a commute;
   * a day with no kept activity makes no update request.
   */
  lemma UpdatesOnlyKeptActivities(api: Strava, date: Date)
    ensures var run := TagDay(api, date);
      var found := DeviceActivities(api, date, DeviceName).0;
      forall c :: c in run.calls && c.PutActivity? ==>
        && found.Some?
        && c.payload == Payload(true, BikeId)
        && exists d :: d in found.value && RecordedOn(d, DeviceName) && !AlreadyTagged(d) && d.id == c.id
  {
    var (found, calls) := DeviceActivities(api, date, DeviceName);
    var run := TagDay(api, date);
    forall c | c in run.calls && c.PutActivity?
      ensures && found.Some?
              && c.payload == Payload(true, BikeId)
              && exists d :: d in found.value && RecordedOn(d, DeviceName) && !AlreadyTagged(d) && d.id == c.id
    {
      if found.None? || c in calls {
        assert false;
      }
      var w := DayWindow(date);
      var listing := api.listActivities(w.after, w.before).value;
      var sel := Select(listing, api.getActivity, DeviceName);
      SelectSpec(listing, api.getActivity, DeviceName);
      assert c in UpdateCalls(found.value);
      UpdateCallsMembers(found.value);
      OnDeviceMembers(Details(sel.fetched, api.getActivity), DeviceName);
      var d :| d in found.value && !AlreadyTagged(d) && c == PutActivity(d.id, Payload(true, BikeId));
      assert d in OnDevice(Details(sel.fetched, api.getActivity), DeviceName);
    }
  }

  /**
   * `tag_commutes_for_date`: fetch the day's activities from the device and
   * update each one that is not already a commute on the bike. A failed
   * update is reported and the loop goes on.
   */
  method TagCommutesForDate(api: Strava, date: Date) returns (run: DayRun)
    ensures run == TagDay(api, date)
  {
    var found, calls := GetActivitiesFromDevice(api, date, DeviceName);
    if found.None? {
      run := DayRun(calls, [], false);
      return;
    }
    var activities := found.value;
    if activities == [] {
      run := DayRun(calls, [], true);
      return;
    }
    var updateCalls: seq<Call> := [];
    var reports: seq<Report> := [];
    var i := 0;
    while i < |activities|
      invariant 0 <= i <= |activities|
      invariant updateCalls == UpdateCalls(activities[..i])
      invariant reports == Reports(activities[..i], api)
    {
      var activity := activities[i];
      DecideStep(activities, i, api);
      if AlreadyTagged(activity) {
        reports := reports + [AlreadyCommute(activity.id)];
        i := i + 1;
        continue;
      }
      var ok, call := UpdateActivity(api, activity.id, BikeId);
      updateCalls := updateCalls + [call];
      if ok {
        reports := reports + [Tagged(activity.id)];
      } else {
        reports := reports + [UpdateFailed(activity.id)];
      }
      i := i + 1;
    }
    assert activities[..i] == activities;
    run := DayRun(calls + updateCalls, reports, true);
  }

  /** The days processed, in order: the day before yesterday, then yesterday. */
  function TargetDates(today: Date): (ds: seq<Date>)
    ensures |ds| == 2
    ensures ds[0].epochDay + 1 == ds[1].epochDay && ds[1].epochDay + 1 == today.epochDay
  {
    [DaysBefore(today, 2), DaysBefore(today, 1)]
  }

  /**
   * The dates `main` computes from its two clock reads: `now1` for the day
   * before yesterday and `now2`, taken just after, for yesterday.
   */
  function ClockDates(now1: int, now2: int): (ds: seq<Date>)
    ensures |ds| == 2
  {
    [DateOf(DateTime(now1 - 2 * SecondsPerDay)), DateOf(DateTime(now2 - SecondsPerDay))]
  }

  /**
   * When both clock reads fall on the same UTC date, the dates computed are
   * the target dates of that day: shifting the instant back and then taking
   * its date is taking its date and then going back.
   */
  lemma TargetDatesFromClock(now1: int, now2: int)
    ensures DateOf(DateTime(now1)) == DateOf(DateTime(now2)) ==>
      ClockDates(now1, now2) == TargetDates(DateOf(DateTime(now1)))
  {
    ShiftThenDate(now1, 2);
    ShiftThenDate(now2, 1);
  }

  /**
   * When the two clock reads straddle a UTC midnight, the day in between is
   * never handled: reads one second apart give day 0 and day 2.
   */
  lemma ClockRaceSkipsADay()
    ensures ClockDates(3 * SecondsPerDay - 1, 3 * SecondsPerDay) == [Date(0), Date(2)]
  {
    assert DateOf(DateTime(SecondsPerDay - 1)) == Date(0);
    assert DateOf(DateTime(2 * SecondsPerDay)) == Date(2);
  }

  /**
   * The runs that take place: each day's run in turn, up to and including
   * the first one that raised, which ends the program.
   */
  function UntilAbort(runs: seq<DayRun>): seq<DayRun>
  {
    if runs == [] then []
    else if !runs[0].completed then [runs[0]]
    else [runs[0]] + UntilAbort(runs[1..])
  }

  /**
   * The runs that take place are a prefix of the planned ones, at least one
   * when any is planned; all but the last completed, and when some planned
   * run does not take place the last one raised.
   */
  lemma {:induction false} UntilAbortSpec(runs: seq<DayRun>)
    ensures var r := UntilAbort(runs);
      && r <= runs
      && (runs != [] ==> r != [])
      && (forall k :: 0 <= k < |r| - 1 ==> r[k].completed)
      && (|r| < |runs| ==> !r[|r| - 1].completed)
  {
    if runs != [] && runs[0].completed {
      UntilAbortSpec(runs[1..]);
      assert runs == [runs[0]] + runs[1..];
    }
  }

  /** Going on from the `i`-th planned run: it takes place, and the rest follow iff it completed. */
  lemma UntilAbortFrom(runs: seq<DayRun>, i: nat)
    requires i < |runs|
    ensures UntilAbort(runs[i..]) == [runs[i]] + (if runs[i].completed then UntilAbort(runs[i + 1..]) else [])
  {
    assert runs[i..][1..] == runs[i + 1..];
  }

  /** Of two days, the second runs iff the first completed. */
  lemma UntilAbortPair(first: DayRun, second: DayRun)
    ensures UntilAbort([first, second]) == if first.completed then [first, second] else [first]
  {
    assert [first, second][1..] == [second];
    assert UntilAbort([second]) == [second];
  }

  /** The run each day would produce, in order. */
  function DayRuns(api: Strava, dates: seq<Date>): (runs: seq<DayRun>)
    ensures |runs| == |dates|
  {
    seq(|dates|, k requires 0 <= k < |dates| => TagDay(api, dates[k]))
  }

  /**
   * The day before yesterday runs first; yesterday runs after it iff the
   * first day completed.
   */
  lemma TwoDays(api: Strava, today: Date)
    ensures var runs := UntilAbort(DayRuns(api, TargetDates(today)));
      && 1 <= |runs| <= 2 && runs[0] == TagDay(api, DaysBefore(today, 2))
      && (|runs| == 2 <==> runs[0].completed)
      && (|runs| == 2 ==> runs[1] == TagDay(api, DaysBefore(today, 1)))
  {
    var all := DayRuns(api, TargetDates(today));
    assert all == [all[0], all[1]];
    UntilAbortPair(all[0], all[1]);
  }

  /**
   * `main`: tag the day before yesterday, then yesterday; a request that
   * raises on the first day ends the program before the second.
   */
  method TagCommutes(api: Strava, today: Date) returns (runs: seq<DayRun>)
    ensures runs == UntilAbort(DayRuns(api, TargetDates(today)))
  {
    var dates := TargetDates(today);
    ghost var all := DayRuns(api, dates);
    runs := [];
    var i := 0;
    while i < |dates|
      invariant 0 <= i <= |dates|
      invariant runs + UntilAbort(all[i..]) == UntilAbort(all)
    {
      var run := TagCommutesForDate(api, dates[i]);
      UntilAbortFrom(all, i);
      runs := runs + [run];
      if !run.completed {
        return;
      }
      i := i + 1;
    }
  }
}
