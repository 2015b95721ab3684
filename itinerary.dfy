/**
 * The itinerary document the language model is asked to produce and the
 * enricher rewrites. Field names follow the JSON schema in the prompt. An
 * `image` field is a string; a missing one reads as "" (both are falsy, and
 * both are left alone). A list or object whose absence makes the enricher
 * throw is an Option.
 */
module Itinerary {
  import opened Wrappers

  datatype Accommodation = Accommodation(
    name: string,
    website: string,
    image: string,
    uniqueFeatures: string,
    coupleFriendly: bool,
    time: string,
    wheelChairAccessible: bool,
    price: string)

  datatype Activity = Activity(
    time: string,
    activity: string,
    image: string,
    price: string,
    insiderTip: string)

  datatype DiningOption = DiningOption(
    name: string,
    specialtyDish: string,
    image: string,
    price: string,
    opensAt: string,
    closesAt: string,
    timeSpend: string,
    wheelChairAccessible: bool,
    diningType: string,
    localEventInsight: string)

  datatype NecessaryItem = NecessaryItem(name: string, description: string, image: string)

  /** One "dayX" entry of trip.itinerary. */
  datatype DayPlan = DayPlan(
    date: string,
    accommodation: Option<Accommodation>,
    activities: Option<seq<Activity>>,
    location: string,
    diningOptions: Option<seq<DiningOption>>,
    distanceToNextDay: string)

  /**
   * itinerary.trip. `days` holds the values of the trip.itinerary object in
   * the order a for...in loop visits its keys; a missing object is no days.
   */
  datatype Trip = Trip(
    destination: string,
    length: string,
    budget: string,
    season: string,
    transportation: string,
    travelers: int,
    interests: seq<string>,
    days: seq<DayPlan>)

  datatype Totals = Totals(
    accommodation: string,
    activity: string,
    dining: string,
    total: string)

  /** The whole parsed reply: `success`, `itinerary.trip`, the price totals and `necessary_items`. */
  datatype Document = Document(
    success: bool,
    trip: Option<Trip>,
    totals: Totals,
    necessaryItems: Option<seq<NecessaryItem>>)
}
