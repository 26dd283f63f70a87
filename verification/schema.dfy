/** The shared request and record shapes and their validation rules
    (the zod schemas). Enumerations become datatypes; a `Parse…` function
    turns the wire form, whose enumerations are plain strings, into the typed
    record and reports the paths of the fields that break a rule. */
module Schema {
  import opened Wrappers

  // ---------------------------------------------------------------- enums

  /** Activity categories; `GeneralActivity` is the category named "activity". */
  datatype Category = Dining | GeneralActivity | Transport | Accommodation

  const CategoryNames: set<string> := {"dining", "activity", "transport", "accommodation"}

  function CategoryName(c: Category): (r: string)
    ensures r in CategoryNames
  {
    match c
    case Dining => "dining"
    case GeneralActivity => "activity"
    case Transport => "transport"
    case Accommodation => "accommodation"
  }

  function ParseCategory(s: string): (r: Option<Category>)
    ensures r.Some? <==> s in CategoryNames
    ensures r.Some? ==> CategoryName(r.value) == s
    ensures forall c :: CategoryName(c) == s ==> r == Some(c)
  {
    if s == "dining" then Some(Dining)
    else if s == "activity" then Some(GeneralActivity)
    else if s == "transport" then Some(Transport)
    else if s == "accommodation" then Some(Accommodation)
    else None
  }

  datatype TransportMode = Walking | Driving | PublicTransit | Rideshare

  const TransportModeNames: set<string> := {"walking", "driving", "public", "rideshare"}

  function TransportModeName(m: TransportMode): (r: string)
    ensures r in TransportModeNames
  {
    match m
    case Walking => "walking"
    case Driving => "driving"
    case PublicTransit => "public"
    case Rideshare => "rideshare"
  }

  function ParseTransportMode(s: string): (r: Option<TransportMode>)
    ensures r.Some? <==> s in TransportModeNames
    ensures r.Some? ==> TransportModeName(r.value) == s
    ensures forall m :: TransportModeName(m) == s ==> r == Some(m)
  {
    if s == "walking" then Some(Walking)
    else if s == "driving" then Some(Driving)
    else if s == "public" then Some(PublicTransit)
    else if s == "rideshare" then Some(Rideshare)
    else None
  }

  datatype Cuisine = Local | Italian | Asian | Seafood | Vegetarian | Mediterranean | Mexican | American

  const CuisineNames: set<string> :=
    {"local", "italian", "asian", "seafood", "vegetarian", "mediterranean", "mexican", "american"}

  function CuisineName(c: Cuisine): (r: string)
    ensures r in CuisineNames
  {
    match c
    case Local => "local"
    case Italian => "italian"
    case Asian => "asian"
    case Seafood => "seafood"
    case Vegetarian => "vegetarian"
    case Mediterranean => "mediterranean"
    case Mexican => "mexican"
    case American => "american"
  }

  function ParseCuisine(s: string): (r: Option<Cuisine>)
    ensures r.Some? <==> s in CuisineNames
    ensures r.Some? ==> CuisineName(r.value) == s
    ensures forall c :: CuisineName(c) == s ==> r == Some(c)
  {
    if s == "local" then Some(Local)
    else if s == "italian" then Some(Italian)
    else if s == "asian" then Some(Asian)
    else if s == "seafood" then Some(Seafood)
    else if s == "vegetarian" then Some(Vegetarian)
    else if s == "mediterranean" then Some(Mediterranean)
    else if s == "mexican" then Some(Mexican)
    else if s == "american" then Some(American)
    else None
  }

  /** The three slots of a day. */
  datatype Slot = Morning | Afternoon | Evening

  const SlotNames: set<string> := {"morning", "afternoon", "evening"}

  function SlotName(t: Slot): (r: string)
    ensures r in SlotNames
  {
    match t
    case Morning => "morning"
    case Afternoon => "afternoon"
    case Evening => "evening"
  }

  function ParseSlot(s: string): (r: Option<Slot>)
    ensures r.Some? <==> s in SlotNames
    ensures r.Some? ==> SlotName(r.value) == s
    ensures forall t :: SlotName(t) == s ==> r == Some(t)
  {
    if s == "morning" then Some(Morning)
    else if s == "afternoon" then Some(Afternoon)
    else if s == "evening" then Some(Evening)
    else None
  }

  datatype MessageType = User | Assistant

  const MessageTypeNames: set<string> := {"user", "assistant"}

  function MessageTypeName(t: MessageType): (r: string)
    ensures r in MessageTypeNames
  {
    match t
    case User => "user"
    case Assistant => "assistant"
  }

  function ParseMessageType(s: string): (r: Option<MessageType>)
    ensures r.Some? <==> s in MessageTypeNames
    ensures r.Some? ==> MessageTypeName(r.value) == s
    ensures forall t :: MessageTypeName(t) == s ==> r == Some(t)
  {
    if s == "user" then Some(User)
    else if s == "assistant" then Some(Assistant)
    else None
  }

  /** Parses every string of `ss` with `parse`; fails when any one fails
      (a zod array of enums). */
  function ParseEach<X>(ss: seq<string>, parse: string -> Option<X>): (r: Option<seq<X>>)
    ensures r.Some? <==> forall i :: 0 <= i < |ss| ==> parse(ss[i]).Some?
    ensures r.Some? ==> |r.value| == |ss| && forall i :: 0 <= i < |ss| ==> parse(ss[i]) == Some(r.value[i])
  {
    if |ss| == 0 then Some([])
    else match (parse(ss[0]), ParseEach(ss[1..], parse))
      case (Some(x), Some(xs)) => Some([x] + xs)
      case _ => None
  }

  // ---------------------------------------------------------------- records

  datatype Activity = Activity(
    id: string,
    name: string,
    description: string,
    cost: real,
    duration: real,                  // hours
    category: Category,
    subcategory: string,
    rating: real,
    imageUrl: Option<string>,
    location: Option<string>)

  /** The three activities of a day, one per slot. */
  datatype Slots = Slots(morning: Activity, afternoon: Activity, evening: Activity)

  function SlotActivity(s: Slots, t: Slot): Activity
  {
    match t
    case Morning => s.morning
    case Afternoon => s.afternoon
    case Evening => s.evening
  }

  /** `date` is the calendar day, counted in days since 1970-01-01 (UTC), that
      the source renders as an ISO `YYYY-MM-DD` string. */
  datatype Day = Day(dayNumber: int, date: int, activities: Slots, totalCost: real, totalDuration: real)

  datatype Itinerary = Itinerary(
    id: string,
    days: seq<Day>,
    totalCost: real,
    destination: string,
    partySize: real,
    createdAt: string)

  datatype TripRequest = TripRequest(
    budget: real,
    tripLength: real,
    partySize: real,
    destination: string,
    transportModes: seq<TransportMode>,
    cuisinePreferences: seq<Cuisine>)

  datatype Rating = Rating(id: string, itineraryId: string, rating: real, feedback: Option<string>, timestamp: string)

  datatype SwapRequest = SwapRequest(activityId: string, dayNumber: real, timeSlot: Slot, currentActivity: Activity)

  datatype ChatContext = ChatContext(itineraryModified: Option<bool>, modificationDetails: Option<string>)

  datatype ChatMessage = ChatMessage(id: string, messageType: MessageType, content: string, timestamp: string, context: Option<ChatContext>)

  // ---------------------------------------------------------------- validity of typed records

  /** `activitySchema`: only the rating is bounded; cost and duration are any number. */
  predicate ActivityValid(a: Activity)
  {
    0.0 <= a.rating <= 5.0
  }

  /** `daySchema`: three valid activities. */
  predicate DayValid(d: Day)
  {
    ActivityValid(d.activities.morning) && ActivityValid(d.activities.afternoon) && ActivityValid(d.activities.evening)
  }

  /** `itinerarySchema`: every day valid. */
  predicate ItineraryValid(it: Itinerary)
  {
    forall i :: 0 <= i < |it.days| ==> DayValid(it.days[i])
  }

  /** `tripFormSchema` on an already typed request. */
  predicate TripRequestValid(r: TripRequest)
  {
    && r.budget >= 100.0
    && 1.0 <= r.tripLength <= 30.0
    && 1.0 <= r.partySize <= 20.0
    && |r.destination| >= 1
  }

  /** `ratingSchema`: the score lies in [1, 5]; it need not be whole. */
  predicate RatingValid(r: Rating)
  {
    1.0 <= r.rating <= 5.0
  }

  // ---------------------------------------------------------------- wire forms and parsing

  datatype TripFormInput = TripFormInput(
    budget: real,
    tripLength: real,
    partySize: real,
    destination: string,
    transportModes: seq<string>,
    cuisinePreferences: seq<string>)

  /** Every rule of `tripFormSchema`, stated over the enumeration name sets. */
  predicate TripFormValid(f: TripFormInput)
  {
    && f.budget >= 100.0
    && 1.0 <= f.tripLength <= 30.0
    && 1.0 <= f.partySize <= 20.0
    && |f.destination| >= 1
    && (forall i :: 0 <= i < |f.transportModes| ==> f.transportModes[i] in TransportModeNames)
    && (forall i :: 0 <= i < |f.cuisinePreferences| ==> f.cuisinePreferences[i] in CuisineNames)
  }

  function Issue(broken: bool, path: string): seq<string>
  {
    if broken then [path] else []
  }

  /** `tripFormSchema.parse`: the typed request, or the paths of every field
      that breaks a rule, in declaration order. */
  function ParseTripForm(f: TripFormInput): (r: Result<TripRequest, seq<string>>)
    ensures r.Success? <==> TripFormValid(f)
    ensures r.Failure? ==> |r.error| > 0
    ensures r.Success? ==> TripRequestValid(r.value)
    ensures r.Success? ==>
      && r.value.budget == f.budget && r.value.tripLength == f.tripLength
      && r.value.partySize == f.partySize && r.value.destination == f.destination
      && |r.value.transportModes| == |f.transportModes|
      && (forall i :: 0 <= i < |f.transportModes| ==> TransportModeName(r.value.transportModes[i]) == f.transportModes[i])
      && |r.value.cuisinePreferences| == |f.cuisinePreferences|
      && (forall i :: 0 <= i < |f.cuisinePreferences| ==> CuisineName(r.value.cuisinePreferences[i]) == f.cuisinePreferences[i])
  {
    var modes := ParseEach(f.transportModes, ParseTransportMode);
    var cuisines := ParseEach(f.cuisinePreferences, ParseCuisine);
    var issues :=
      Issue(f.budget < 100.0, "budget")
      + Issue(f.tripLength < 1.0 || f.tripLength > 30.0, "tripLength")
      + Issue(f.partySize < 1.0 || f.partySize > 20.0, "partySize")
      + Issue(|f.destination| < 1, "destination")
      + Issue(modes.None?, "transportModes")
      + Issue(cuisines.None?, "cuisinePreferences");
    if |issues| == 0 then
      Success(TripRequest(f.budget, f.tripLength, f.partySize, f.destination, modes.value, cuisines.value))
    else
      Failure(issues)
  }

  datatype ActivityInput = ActivityInput(
    id: string,
    name: string,
    description: string,
    cost: real,
    duration: real,
    category: string,
    subcategory: string,
    rating: real,
    imageUrl: Option<string>,
    location: Option<string>)

  predicate ActivityInputValid(a: ActivityInput)
  {
    a.category in CategoryNames && 0.0 <= a.rating <= 5.0
  }

  function ActivityIssues(a: ActivityInput, prefix: string): seq<string>
  {
    Issue(a.category !in CategoryNames, prefix + "category")
    + Issue(a.rating < 0.0 || a.rating > 5.0, prefix + "rating")
  }

  /** `activitySchema.parse`. */
  function ParseActivity(a: ActivityInput): (r: Result<Activity, seq<string>>)
    ensures r.Success? <==> ActivityInputValid(a)
    ensures r.Failure? ==> |r.error| > 0
    ensures r.Success? ==> ActivityValid(r.value) && CategoryName(r.value.category) == a.category
    ensures r.Success? ==>
      && r.value.id == a.id && r.value.name == a.name && r.value.description == a.description
      && r.value.cost == a.cost && r.value.duration == a.duration
      && r.value.subcategory == a.subcategory && r.value.rating == a.rating
      && r.value.imageUrl == a.imageUrl && r.value.location == a.location
  {
    var issues := ActivityIssues(a, "");
    match ParseCategory(a.category)
    case Some(c) =>
      if |issues| == 0 then
        Success(Activity(a.id, a.name, a.description, a.cost, a.duration, c, a.subcategory, a.rating, a.imageUrl, a.location))
      else Failure(issues)
    case None => Failure(issues)
  }

  datatype SwapRequestInput = SwapRequestInput(activityId: string, dayNumber: real, timeSlot: string, currentActivity: ActivityInput)

  predicate SwapRequestInputValid(s: SwapRequestInput)
  {
    s.timeSlot in SlotNames && ActivityInputValid(s.currentActivity)
  }

  /** `swapRequestSchema.parse`. */
  function ParseSwapRequest(s: SwapRequestInput): (r: Result<SwapRequest, seq<string>>)
    ensures r.Success? <==> SwapRequestInputValid(s)
    ensures r.Failure? ==> |r.error| > 0
    ensures r.Success? ==>
      && SlotName(r.value.timeSlot) == s.timeSlot && r.value.dayNumber == s.dayNumber
      && r.value.activityId == s.activityId && ActivityValid(r.value.currentActivity)
      && CategoryName(r.value.currentActivity.category) == s.currentActivity.category
      && r.value.currentActivity.cost == s.currentActivity.cost
      && r.value.currentActivity.duration == s.currentActivity.duration
      && r.value.currentActivity.id == s.currentActivity.id
    ensures r.Success? ==> Success(r.value.currentActivity) == ParseActivity(s.currentActivity)
  {
    var issues := Issue(s.timeSlot !in SlotNames, "timeSlot") + ActivityIssues(s.currentActivity, "currentActivity.");
    match (ParseSlot(s.timeSlot), ParseActivity(s.currentActivity))
    case (Some(t), Success(a)) => Success(SwapRequest(s.activityId, s.dayNumber, t, a))
    case _ => Failure(issues)
  }

  datatype ChatMessageInput = ChatMessageInput(id: string, messageType: string, content: string, timestamp: string, context: Option<ChatContext>)

  /** `chatMessageSchema.parse`: the type must be "user" or "assistant"; the
      context and both of its fields are optional. */
  function ParseChatMessage(m: ChatMessageInput): (r: Result<ChatMessage, seq<string>>)
    ensures r.Success? <==> m.messageType in MessageTypeNames
    ensures r.Failure? ==> r.error == ["type"]
    ensures r.Success? ==>
      MessageTypeName(r.value.messageType) == m.messageType && r.value.content == m.content && r.value.context == m.context
    ensures r.Success? ==> r.value == ChatMessage(m.id, r.value.messageType, m.content, m.timestamp, m.context)
  {
    match ParseMessageType(m.messageType)
    case Some(t) => Success(ChatMessage(m.id, t, m.content, m.timestamp, m.context))
    case None => Failure(["type"])
  }

  /** `ratingSchema.parse`: the record is accepted unchanged or rejected. */
  function ParseRating(r: Rating): (res: Result<Rating, seq<string>>)
    ensures res.Success? <==> 1.0 <= r.rating <= 5.0
    ensures res.Success? ==> res.value == r
    ensures res.Failure? ==> res.error == ["rating"]
  {
    if RatingValid(r) then Success(r) else Failure(["rating"])
  }
}
