/** The browser-side persistence manager: six well-known keys in the page's
    key/value storage, a bounded log of user actions, and a clear operation.
    Serialisation is the identity: a stored value is the record itself. */
module LocalStore {
  import opened Wrappers
  import opened Schema

  const FormKey := "tripPlannerForm"
  const ItineraryKey := "tripPlannerItinerary"
  const ChatKey := "tripPlannerChat"
  const RatingsKey := "tripPlannerRatings"
  const ActionsKey := "tripPlannerActions"
  const CurrentIdKey := "currentItineraryId"

  /** The keys `clearAllData` removes. */
  const AppKeys: set<string> := {FormKey, ItineraryKey, ChatKey, RatingsKey, ActionsKey, CurrentIdKey}

  /** The log keeps this many of the most recent actions. */
  const MaxActions := 100

  datatype ActionType = SwapAction | ChatAction | RatingAction | FormSubmit

  /** A logged action; `details` is an arbitrary record, here string-valued. */
  datatype UserAction = UserAction(id: string, actionType: ActionType, timestamp: string, details: map<string, string>)

  /** What the caller passes to `logUserAction`: everything but id and time. */
  datatype ActionInput = ActionInput(actionType: ActionType, details: map<string, string>)

  /** A stored value, by the shape it was written with. `Text` is a raw
      string (the current itinerary id, or anything another writer left). */
  datatype Value =
    | FormValue(form: TripRequest)
    | ItineraryValue(itinerary: Itinerary)
    | ChatValue(messages: seq<ChatMessage>)
    | RatingsValue(ratings: seq<Rating>)
    | ActionsValue(actions: seq<UserAction>)
    | Text(text: string)

  type Storage = map<string, Value>

  // ---------------------------------------------------------------- saves and loads

  function SaveFormData(s: Storage, form: TripRequest): (r: Storage)
    ensures r.Keys == s.Keys + {FormKey}
    ensures forall k :: k in s && k != FormKey ==> r[k] == s[k]
  {
    s[FormKey := FormValue(form)]
  }

  /** An absent key, or one holding some other shape, loads as null. */
  function LoadFormData(s: Storage): (r: Option<TripRequest>)
    ensures r.Some? <==> FormKey in s && s[FormKey].FormValue?
  {
    if FormKey in s && s[FormKey].FormValue? then Some(s[FormKey].form) else None
  }

  /** Stores the itinerary and records its id as the current one. */
  function SaveItinerary(s: Storage, it: Itinerary): (r: Storage)
    ensures r.Keys == s.Keys + {ItineraryKey, CurrentIdKey}
    ensures r[CurrentIdKey] == Text(it.id)
    ensures forall k :: k in s && k != ItineraryKey && k != CurrentIdKey ==> r[k] == s[k]
  {
    s[ItineraryKey := ItineraryValue(it)][CurrentIdKey := Text(it.id)]
  }

  function LoadItinerary(s: Storage): (r: Option<Itinerary>)
    ensures r.Some? <==> ItineraryKey in s && s[ItineraryKey].ItineraryValue?
  {
    if ItineraryKey in s && s[ItineraryKey].ItineraryValue? then Some(s[ItineraryKey].itinerary) else None
  }

  function SaveChatHistory(s: Storage, messages: seq<ChatMessage>): (r: Storage)
    ensures r.Keys == s.Keys + {ChatKey}
    ensures forall k :: k in s && k != ChatKey ==> r[k] == s[k]
  {
    s[ChatKey := ChatValue(messages)]
  }

  /** An absent key, or one holding some other shape, loads as the empty list. */
  function LoadChatHistory(s: Storage): (r: seq<ChatMessage>)
    ensures ChatKey !in s ==> r == []
  {
    if ChatKey in s && s[ChatKey].ChatValue? then s[ChatKey].messages else []
  }

  function LoadRatings(s: Storage): (r: seq<Rating>)
    ensures RatingsKey !in s ==> r == []
  {
    if RatingsKey in s && s[RatingsKey].RatingsValue? then s[RatingsKey].ratings else []
  }

  /** Appends to the stored ratings. */
  function SaveRating(s: Storage, rating: Rating): (r: Storage)
    ensures r.Keys == s.Keys + {RatingsKey}
    ensures forall k :: k in s && k != RatingsKey ==> r[k] == s[k]
    ensures LoadRatings(r) == LoadRatings(s) + [rating]
  {
    s[RatingsKey := RatingsValue(LoadRatings(s) + [rating])]
  }

  function LoadUserActions(s: Storage): (r: seq<UserAction>)
    ensures ActionsKey !in s ==> r == []
  {
    if ActionsKey in s && s[ActionsKey].ActionsValue? then s[ActionsKey].actions else []
  }

  // ---------------------------------------------------------------- the action log

  /** The last `n` elements of `xs` (all of them when there are fewer). */
  function KeepLast<T>(xs: seq<T>, n: nat): (r: seq<T>)
    ensures |r| == if |xs| < n then |xs| else n
    ensures r == xs[|xs| - |r|..]
  {
    if |xs| > n then xs[|xs| - n..] else xs
  }

  /** The record `logUserAction` builds; `id` and `timestamp` come from the
      clock and the random source. */
  function Stamp(a: ActionInput, id: string, timestamp: string): (r: UserAction)
    ensures r.id == id && r.timestamp == timestamp
    ensures r.actionType == a.actionType && r.details == a.details
  {
    UserAction(id, a.actionType, timestamp, a.details)
  }

  /** Appends the action and drops the oldest ones beyond the bound. */
  function LogUserAction(s: Storage, action: UserAction): (r: Storage)
    ensures r.Keys == s.Keys + {ActionsKey}
    ensures forall k :: k in s && k != ActionsKey ==> r[k] == s[k]
    ensures var log, before := LoadUserActions(r), LoadUserActions(s);
      && |log| == (if |before| + 1 < MaxActions then |before| + 1 else MaxActions)
      && log[|log| - 1] == action
      && log == KeepLast(before + [action], MaxActions)
  {
    var existing := LoadUserActions(s) + [action];
    s[ActionsKey := ActionsValue(if |existing| > MaxActions then existing[|existing| - MaxActions..] else existing)]
  }

  /** Logs the actions one after another. */
  function LogAll(s: Storage, actions: seq<UserAction>): Storage
    decreases |actions|
  {
    if |actions| == 0 then s
    else LogAll(LogUserAction(s, actions[0]), actions[1..])
  }

  /** After any run of actions the log is the most recent (at most 100) of
      the old log followed by the run, in order. A log only this module
      wrote never holds more than 100 entries. */
  lemma {:induction false} LogAllKeepsLast(s: Storage, actions: seq<UserAction>)
    requires |LoadUserActions(s)| <= MaxActions
    ensures LoadUserActions(LogAll(s, actions)) == KeepLast(LoadUserActions(s) + actions, MaxActions)
    decreases |actions|
  {
    var before := LoadUserActions(s);
    if |actions| == 0 {
      assert before + actions == before;
    } else {
      var s1 := LogUserAction(s, actions[0]);
      LogAllKeepsLast(s1, actions[1..]);
      KeepLastStep(before, actions, MaxActions);
    }
  }

  /** Trimming a prefix before appending a run loses nothing the final trim
      keeps. */
  lemma {:induction false} KeepLastConcat<T>(xs: seq<T>, ys: seq<T>, n: nat)
    ensures KeepLast(KeepLast(xs, n) + ys, n) == KeepLast(xs + ys, n)
  {
    var k := KeepLast(xs, n);
    var a, b := KeepLast(k + ys, n), KeepLast(xs + ys, n);
    assert |a| == |b|;
    forall i | 0 <= i < |a| ensures a[i] == b[i] {
      var j := |a| - 1 - i;
      if j < |ys| {
        assert a[i] == ys[|ys| - 1 - j] && b[i] == ys[|ys| - 1 - j];
      } else {
        assert a[i] == k[|k| - 1 - (j - |ys|)];
        assert b[i] == xs[|xs| - 1 - (j - |ys|)];
      }
    }
  }

  lemma {:induction false} KeepLastStep<T>(xs: seq<T>, ys: seq<T>, n: nat)
    requires |ys| > 0
    ensures KeepLast(KeepLast(xs + [ys[0]], n) + ys[1..], n) == KeepLast(xs + ys, n)
  {
    var head, rest := xs + [ys[0]], ys[1..];
    assert head + rest == xs + ys;
    KeepLastConcat(head, rest, n);
  }

  // ---------------------------------------------------------------- clearing

  /** Removes the six application keys; a missing key is no error. */
  function ClearAllData(s: Storage): (r: Storage)
    ensures forall k :: k in AppKeys ==> k !in r
    ensures forall k :: k !in AppKeys ==> (k in r <==> k in s)
    ensures forall k :: k in r ==> r[k] == s[k]
  {
    s - AppKeys
  }

  /** After a clear every load returns its default. */
  lemma ClearResetsLoads(s: Storage)
    ensures LoadFormData(ClearAllData(s)) == None
    ensures LoadItinerary(ClearAllData(s)) == None
    ensures LoadChatHistory(ClearAllData(s)) == []
    ensures LoadRatings(ClearAllData(s)) == []
    ensures LoadUserActions(ClearAllData(s)) == []
    ensures CurrentIdKey !in ClearAllData(s)
  {
    assert FormKey in AppKeys && ItineraryKey in AppKeys && ChatKey in AppKeys;
    assert RatingsKey in AppKeys && ActionsKey in AppKeys && CurrentIdKey in AppKeys;
  }

  // ---------------------------------------------------------------- round trips

  lemma SaveLoadRoundTrips(s: Storage, form: TripRequest, it: Itinerary, messages: seq<ChatMessage>)
    ensures LoadFormData(SaveFormData(s, form)) == Some(form)
    ensures LoadItinerary(SaveItinerary(s, it)) == Some(it)
    ensures LoadChatHistory(SaveChatHistory(s, messages)) == messages
  {
  }
}
