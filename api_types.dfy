/** The payload returned by the fundraising event's API, as declared by the
    interfaces at the top of src/App.tsx. Amounts are whole numbers here;
    the API sends them as JavaScript numbers. */
module ApiTypes {

  import opened Wrappers

  /** A numeric amount together with its locale-formatted text. */
  datatype Amount = Amount(number: int, formatted: string)

  /** One donation goal of a streamer: the amount needed and its label. */
  datatype Goal = Goal(amountRequired: Amount, title: string)

  /** A streamer's goals, whether they are hidden, and the streamer's own total. */
  datatype DonationGoal = DonationGoal(hidden: bool, goals: seq<Goal>, donationAmount: Amount)

  /** The interface declares `viewersAmount.formatted` with a numeric type. */
  datatype Viewers = Viewers(formatted: int)

  /** A participant of the event. */
  datatype Streamer = Streamer(
    display: string,
    online: bool,
    game: string,
    location: string,
    viewersAmount: Viewers,
    donationGoal: DonationGoal)

  /** One snapshot of the event. `donationAmount` is optional because the
      component reads it with optional chaining when it stores the total. */
  datatype ApiData = ApiData(live: seq<Streamer>, donationAmount: Option<Amount>, viewersCount: Amount)

  /** `data.donationAmount?.number`: the event total, absent when the payload has none. */
  function TotalOf(data: ApiData): Option<int>
  {
    match data.donationAmount
    case Some(a) => Some(a.number)
    case None => None
  }
}
