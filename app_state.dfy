/**
 * The view state of the GrowthProAI dashboard component (`App` in
 * src/App.js) and its transitions, as pure values. Each handler runs as one
 * atomic step, and the outcome of its network call is a parameter. Module
 * Dashboard runs the same handlers imperatively over a class and is proved
 * against the functions here.
 */
module AppState {
  import opened Text

  datatype Option<T> = None | Some(value: T)

  /** The network outcome of one `fetch`: the parsed body of a 2xx response,
      or `Fail` for a non-2xx status, a network error or a body that does not
      parse (each of these ends in the handler's `catch`). */
  datatype Response<T> = Ok(payload: T) | Fail

  /** A number in a backend payload. The client only stores it and shows it, so
      it is kept as the text it arrived as and only compared for equality. */
  datatype JsonNumber = JsonNumber(text: string)

  /** Body of a successful `POST /api/business-data`. */
  datatype Metrics = Metrics(rating: JsonNumber, reviews: JsonNumber, headline: string)

  /** Body of a successful `GET /api/regenerate-headline`. */
  datatype HeadlineReply = HeadlineReply(headline: string)

  /** The `businessData` record: the fetched payload paired with the form
      values it was fetched for. */
  datatype BusinessData = BusinessData(data: Metrics, businessName: string, location: string)

  /** A request the component sends, with the parameters it carries. */
  datatype Request =
    | FetchBusinessData(name: string, location: string)
    | RegenerateHeadline(name: string, location: string)

  /** The keys of the `errors` object: `name` and `location`. */
  datatype Field = Name | Location

  /** Notification `type`: `"success"` or `"error"`. */
  datatype Kind = Success | Error

  datatype Notification = Notification(message: string, kind: Kind)

  /** The seven pieces of component state. */
  datatype View = View(
    businessName: string,
    location: string,
    businessData: Option<BusinessData>,
    isLoading: bool,
    isRegenerating: bool,
    errors: map<Field, string>,
    notification: Option<Notification>)

  const NameRequired := "Business name is required"
  const LocationRequired := "Location is required"
  const FillRequiredFields := "Please fill in all required fields."
  const DataLoaded := "Business data loaded successfully!"
  const DataLoadFailed := "Failed to load business data. Please try again."
  const HeadlineRegenerated := "Your SEO headline has been regenerated!"
  const HeadlineRegenerateFailed := "Failed to regenerate headline. Please try again."

  /** The state every `useState` starts from. */
  const Initial := View("", "", None, false, false, map[], None)

  /** The message recorded for a field left blank. */
  function Message(f: Field): string {
    match f
    case Name => NameRequired
    case Location => LocationRequired
  }

  /** The error map `validateForm` builds: each field is checked on its own,
      and a field has an entry exactly when it is blank after trimming. */
  function FieldErrors(businessName: string, location: string): (r: map<Field, string>)
    ensures Name in r <==> IsBlank(businessName)
    ensures Location in r <==> IsBlank(location)
    ensures forall f :: f in r ==> r[f] == Message(f)
    ensures r == map[] <==> !IsBlank(businessName) && !IsBlank(location)
  {
    var byName := if Trim(businessName) == [] then map[Name := NameRequired] else map[];
    if Trim(location) == [] then byName[Location := LocationRequired] else byName
  }

  /** The two stored records agree on everything a regenerate must keep:
      rating, review count, business name and location. */
  predicate SameProfile(a: BusinessData, b: BusinessData) {
    && a.data.rating == b.data.rating
    && a.data.reviews == b.data.reviews
    && a.businessName == b.businessName
    && a.location == b.location
  }

  /** The `setBusinessData((prev) => ...)` updater of a regenerate: a missing
      record stays missing, a present one gets the new headline and keeps
      its profile. */
  function WithHeadline(prev: Option<BusinessData>, headline: string): (r: Option<BusinessData>)
    ensures r.None? <==> prev.None?
    ensures r.Some? ==> SameProfile(r.value, prev.value) && r.value.data.headline == headline
  {
    match prev
    case None => None
    case Some(d) => Some(d.(data := d.data.(headline := headline)))
  }

  /** A record is determined by its profile and its headline, so a record
      that `WithHeadline` returns differs from the old one in the headline only. */
  lemma ProfileAndHeadlineDetermineRecord(a: BusinessData, b: BusinessData)
    requires SameProfile(a, b) && a.data.headline == b.data.headline
    ensures a == b
  {
  }

  /** A later headline overwrites an earlier one: two regenerates in a row
      leave the record the second one alone would. */
  lemma WithHeadlineLastWins(prev: Option<BusinessData>, h1: string, h2: string)
    ensures WithHeadline(WithHeadline(prev, h1), h2) == WithHeadline(prev, h2)
  {
  }

  /** The request a submit sends: none when a field is blank, otherwise one
      carrying the form values. */
  function SubmitRequest(v: View): (r: Option<Request>)
    ensures r.Some? <==> !IsBlank(v.businessName) && !IsBlank(v.location)
    ensures r.Some? ==> r.value == FetchBusinessData(v.businessName, v.location)
  {
    if FieldErrors(v.businessName, v.location) == map[] then
      Some(FetchBusinessData(v.businessName, v.location))
    else
      None
  }

  /** `handleSubmit` given the outcome of its POST. */
  function Submit(v: View, response: Response<Metrics>): (w: View)
    // validation always runs and replaces the error map wholesale
    ensures w.errors == FieldErrors(v.businessName, v.location)
    ensures w.businessName == v.businessName && w.location == v.location
    ensures w.isRegenerating == v.isRegenerating
    // a blank field: no request, nothing else changes but the error banner
    ensures IsBlank(v.businessName) || IsBlank(v.location) ==>
      && w.businessData == v.businessData
      && w.isLoading == v.isLoading
      && w.notification == Some(Notification(FillRequiredFields, Error))
    // a request was sent: loading is over whatever came back
    ensures !IsBlank(v.businessName) && !IsBlank(v.location) ==> !w.isLoading
    ensures !IsBlank(v.businessName) && !IsBlank(v.location) && response.Fail? ==>
      && w.businessData == v.businessData
      && w.notification == Some(Notification(DataLoadFailed, Error))
    ensures !IsBlank(v.businessName) && !IsBlank(v.location) && response.Ok? ==>
      && w.businessData == Some(BusinessData(response.payload, v.businessName, v.location))
      && w.notification == Some(Notification(DataLoaded, Success))
  {
    var errors := FieldErrors(v.businessName, v.location);
    var validated := v.(errors := errors);
    if errors != map[] then
      validated.(notification := Some(Notification(FillRequiredFields, Error)))
    else
      match response
      case Fail =>
        validated.(isLoading := false, notification := Some(Notification(DataLoadFailed, Error)))
      case Ok(data) =>
        validated.(businessData := Some(BusinessData(data, v.businessName, v.location)),
                   isLoading := false,
                   notification := Some(Notification(DataLoaded, Success)))
  }

  /** The request a regenerate sends: none without a stored record, otherwise
      one carrying the STORED name and location. */
  function RegenerateRequest(v: View): (r: Option<Request>)
    ensures r.Some? <==> v.businessData.Some?
    ensures r.Some? ==> r.value == RegenerateHeadline(v.businessData.value.businessName, v.businessData.value.location)
  {
    match v.businessData
    case None => None
    case Some(d) => Some(RegenerateHeadline(d.businessName, d.location))
  }

  /** `handleRegenerateHeadline` given the outcome of its GET. */
  function Regenerate(v: View, response: Response<HeadlineReply>): (w: View)
    // no record: nothing at all happens
    ensures v.businessData.None? ==> w == v
    // a request was sent: only the record, the flag and the banner may change
    ensures v.businessData.Some? ==>
      && !w.isRegenerating
      && w.businessName == v.businessName && w.location == v.location
      && w.isLoading == v.isLoading && w.errors == v.errors
      && w.businessData.Some? && SameProfile(w.businessData.value, v.businessData.value)
    ensures v.businessData.Some? && response.Fail? ==>
      && w.businessData == v.businessData
      && w.notification == Some(Notification(HeadlineRegenerateFailed, Error))
    ensures v.businessData.Some? && response.Ok? ==>
      && w.businessData.value.data.headline == response.payload.headline
      && w.notification == Some(Notification(HeadlineRegenerated, Success))
  {
    if v.businessData.None? then
      v
    else
      match response
      case Fail =>
        v.(isRegenerating := false, notification := Some(Notification(HeadlineRegenerateFailed, Error)))
      case Ok(reply) =>
        v.(businessData := WithHeadline(v.businessData, reply.headline),
           isRegenerating := false,
           notification := Some(Notification(HeadlineRegenerated, Success)))
  }

  /** A regenerate request depends on the stored record only, never on what
      the form fields currently hold. */
  lemma RegenerateIgnoresForm(v: View, name: string, location: string)
    ensures RegenerateRequest(v.(businessName := name, location := location)) == RegenerateRequest(v)
  {
  }

  /** The user events the component reacts to: typing in either field
      (the `onChange` handlers), submitting the form and clicking
      regenerate, each with the outcome of its request. */
  datatype Event =
    | EditName(text: string)
    | EditLocation(text: string)
    | SubmitForm(fetched: Response<Metrics>)
    | ClickRegenerate(regenerated: Response<HeadlineReply>)

  function Step(v: View, e: Event): View {
    match e
    case EditName(s) => v.(businessName := s)
    case EditLocation(s) => v.(location := s)
    case SubmitForm(response) => Submit(v, response)
    case ClickRegenerate(response) => Regenerate(v, response)
  }

  /** The state after the events `evs`, in order, starting from `v`. */
  function Run(v: View, evs: seq<Event>): View
    decreases |evs|
  {
    if evs == [] then v else Step(Run(v, evs[..|evs| - 1]), evs[|evs| - 1])
  }

  /** What holds of every state the component can reach: both flags are down
      between handlers, the error map only holds the fixed messages, and a
      stored record was fetched for two non-blank fields. */
  predicate Reachable(v: View) {
    && !v.isLoading
    && !v.isRegenerating
    && (forall f :: f in v.errors ==> v.errors[f] == Message(f))
    && (v.businessData.Some? ==>
          !IsBlank(v.businessData.value.businessName) && !IsBlank(v.businessData.value.location))
  }

  lemma StepKeepsReachable(v: View, e: Event)
    requires Reachable(v)
    ensures Reachable(Step(v, e))
  {
  }

  lemma {:induction false} RunKeepsReachable(evs: seq<Event>)
    ensures Reachable(Run(Initial, evs))
  {
    if evs != [] {
      RunKeepsReachable(evs[..|evs| - 1]);
      StepKeepsReachable(Run(Initial, evs[..|evs| - 1]), evs[|evs| - 1]);
    }
  }

  /** Every regenerate request the component can send carries a non-blank
      name and location. */
  lemma RegenerateRequestNeverBlank(evs: seq<Event>)
    ensures var r := RegenerateRequest(Run(Initial, evs));
      r.Some? ==> !IsBlank(r.value.name) && !IsBlank(r.value.location)
  {
    RunKeepsReachable(evs);
  }

  /** Event `i` of `evs` is a submit that fetched the rating and review count
      of `d`, sent when the form held `d`'s name and location. */
  predicate FetchedAt(evs: seq<Event>, i: int, d: BusinessData)
    requires 0 <= i < |evs|
  {
    var before := Run(Initial, evs[..i]);
    && evs[i].SubmitForm?
    && evs[i].fetched.Ok?
    && evs[i].fetched.payload.rating == d.data.rating
    && evs[i].fetched.payload.reviews == d.data.reviews
    && before.businessName == d.businessName
    && before.location == d.location
  }

  /** The event is a submit of two non-blank fields whose fetch succeeded:
      the one step that stores a new record. */
  predicate StoresRecord(v: View, e: Event) {
    e.SubmitForm? && e.fetched.Ok? && !IsBlank(v.businessName) && !IsBlank(v.location)
  }

  /** Any other step that leaves a record had one before, with the same profile. */
  lemma StepKeepsProfile(v: View, e: Event)
    requires Step(v, e).businessData.Some? && !StoresRecord(v, e)
    ensures v.businessData.Some? && SameProfile(Step(v, e).businessData.value, v.businessData.value)
  {
  }

  /** A fetch found in a prefix of the events is found in the whole sequence. */
  lemma FetchedInPrefix(evs: seq<Event>, n: int, i: int, d: BusinessData)
    requires 0 <= i < n <= |evs|
    requires FetchedAt(evs[..n], i, d)
    ensures FetchedAt(evs, i, d)
  {
    assert evs[..n][..i] == evs[..i];
  }

  /** A stored record only ever comes from a successful fetch: its rating and
      review count are those of some successful submit's payload, and its
      name and location are the form values at the time of that submit. */
  lemma {:induction false} StoredDataComesFromFetch(evs: seq<Event>)
    ensures Run(Initial, evs).businessData.Some? ==>
      exists i :: 0 <= i < |evs| && FetchedAt(evs, i, Run(Initial, evs).businessData.value)
  {
    if evs == [] {
      return;
    }
    var n := |evs| - 1;
    var before := Run(Initial, evs[..n]);
    var after := Run(Initial, evs);
    assert after == Step(before, evs[n]);
    if after.businessData.Some? {
      var d := after.businessData.value;
      if StoresRecord(before, evs[n]) {
        assert FetchedAt(evs, n, d);
      } else {
        StepKeepsProfile(before, evs[n]);
        StoredDataComesFromFetch(evs[..n]);
        var i :| 0 <= i < n && FetchedAt(evs[..n], i, before.businessData.value);
        FetchedInPrefix(evs, n, i, d);
      }
    }
  }

  /** Events that are not submits never change whether a record exists, nor
      its profile: regenerates only ever touch the headline. */
  lemma {:induction false} OnlySubmitReplacesProfile(v: View, evs: seq<Event>)
    requires forall k :: 0 <= k < |evs| ==> !evs[k].SubmitForm?
    ensures Run(v, evs).businessData.Some? <==> v.businessData.Some?
    ensures v.businessData.Some? ==> SameProfile(Run(v, evs).businessData.value, v.businessData.value)
  {
    if evs != [] {
      var n := |evs| - 1;
      OnlySubmitReplacesProfile(v, evs[..n]);
      assert !evs[n].SubmitForm?;
    }
  }

  /** Submitting with both fields empty records two errors and sends nothing. */
  lemma BothFieldsEmpty(v: View, response: Response<Metrics>)
    requires v.businessName == "" && v.location == ""
    ensures SubmitRequest(v) == None
    ensures Submit(v, response).errors == map[Name := NameRequired, Location := LocationRequired]
  {
  }

  /** Submitting with only the location blank records exactly one error,
      keyed `location`. */
  lemma OnlyLocationBlank(v: View, response: Response<Metrics>)
    requires !IsBlank(v.businessName) && IsBlank(v.location)
    ensures SubmitRequest(v) == None
    ensures Submit(v, response).errors == map[Location := LocationRequired]
  {
    var errors := Submit(v, response).errors;
    assert Name !in errors;
    assert forall f :: f in errors <==> f == Location;
  }

  /** A successful fetch for "Cake & Co" in "Mumbai" stores exactly the
      payload paired with the two inputs. */
  lemma CakeAndCoFetched(v: View)
    requires v.businessName == "Cake & Co" && v.location == "Mumbai"
    ensures var m := Metrics(JsonNumber("4.5"), JsonNumber("120"), "Best cakes in Mumbai");
      Submit(v, Ok(m)).businessData == Some(BusinessData(m, "Cake & Co", "Mumbai"))
  {
  }
}
