/** What the component's markup decides from its state: which of the three
    screens is shown, and for the dashboard, each streamer's card (tile
    width, goal list and which goals are achieved). Also the per-character
    split used for the spinning total. */
module Render {

  import opened Wrappers
  import opened ApiTypes
  import opened Polling

  /** A goal is shown as achieved when the streamer's own total reaches it. */
  predicate GoalAchieved(dg: DonationGoal, g: Goal)
  {
    dg.donationAmount.number >= g.amountRequired.number
  }

  /** The goal list of a card is shown when it is not hidden and not empty. */
  predicate GoalsShown(dg: DonationGoal)
  {
    !dg.hidden && |dg.goals| > 0
  }

  /** Every fifth card of the grid, starting with the first, is a double tile. */
  predicate IsWideTile(index: nat)
  {
    index % 5 == 0
  }

  /** One list item of the goal list: its text and whether it is styled achieved. */
  datatype GoalLine = GoalLine(caption: string, achieved: bool)

  /** What a streamer's card displays. `goals` is None when the list is not shown. */
  datatype Card = Card(
    name: string,
    live: bool,
    viewers: int,
    game: string,
    wide: bool,
    goals: Option<seq<GoalLine>>,
    personal: string)

  /** The three branches of the rendered page. */
  datatype Screen = LoadingScreen | Unavailable | Dashboard(total: Option<int>, cards: seq<Card>)

  /** One `span` of the spinning total: its key, its character and whether
      it carries the `animate` class. */
  datatype SpinDigit = SpinDigit(key: nat, ch: char, animate: bool)

  /** The goal list of a streamer, in the order of its goals. */
  function GoalLines(dg: DonationGoal): (lines: seq<GoalLine>)
    ensures |lines| == |dg.goals|
    ensures forall i :: 0 <= i < |lines| ==>
              (lines[i].achieved <==> dg.donationAmount.number >= dg.goals[i].amountRequired.number)
    ensures forall i :: 0 <= i < |lines| ==>
              lines[i].caption == dg.goals[i].amountRequired.formatted + " - " + dg.goals[i].title
  {
    seq(|dg.goals|, i requires 0 <= i < |dg.goals| =>
      GoalLine(dg.goals[i].amountRequired.formatted + " - " + dg.goals[i].title, GoalAchieved(dg, dg.goals[i])))
  }

  /** When the goals are listed by increasing amount, the achieved ones are
      exactly a leading run of the list. */
  lemma AchievedGoalsFormPrefix(dg: DonationGoal)
    requires forall i, j :: 0 <= i <= j < |dg.goals| ==>
               dg.goals[i].amountRequired.number <= dg.goals[j].amountRequired.number
    ensures forall i, j :: 0 <= i <= j < |GoalLines(dg)| && GoalLines(dg)[j].achieved ==>
              GoalLines(dg)[i].achieved
  {
  }

  /** A higher personal total never turns an achieved goal back to unachieved. */
  lemma RaisingTotalKeepsGoalsAchieved(dg: DonationGoal, more: int)
    requires more >= dg.donationAmount.number
    ensures var raised := dg.(donationAmount := dg.donationAmount.(number := more));
            forall i :: 0 <= i < |dg.goals| && GoalLines(dg)[i].achieved ==> GoalLines(raised)[i].achieved
  {
  }

  /** The card of the streamer at position `index` of the grid. */
  function CardOf(st: Streamer, index: nat): (card: Card)
    ensures card.name == st.display && card.live == st.online && card.game == st.game
    ensures card.viewers == st.viewersAmount.formatted
    ensures card.wide <==> index % 5 == 0
    ensures card.goals.Some? <==> !st.donationGoal.hidden && |st.donationGoal.goals| > 0
    ensures card.goals.Some? ==> card.goals.value == GoalLines(st.donationGoal)
    ensures card.personal == st.donationGoal.donationAmount.formatted
  {
    Card(st.display, st.online, st.viewersAmount.formatted, st.game, IsWideTile(index),
         if GoalsShown(st.donationGoal) then Some(GoalLines(st.donationGoal)) else None,
         st.donationGoal.donationAmount.formatted)
  }

  /** The grid: one card per streamer, in the payload's order. */
  function Cards(live: seq<Streamer>): (cards: seq<Card>)
    ensures |cards| == |live|
    ensures forall i :: 0 <= i < |live| ==> cards[i] == CardOf(live[i], i)
  {
    seq(|live|, i requires 0 <= i < |live| => CardOf(live[i], i))
  }

  /** The number of double tiles among `cards`. */
  function CountWide(cards: seq<Card>): nat
    decreases |cards|
  {
    if cards == [] then 0
    else CountWide(cards[..|cards| - 1]) + (if cards[|cards| - 1].wide then 1 else 0)
  }

  /** A grid of n streamers has one double tile per started group of five. */
  lemma {:induction false} WideTileCount(live: seq<Streamer>)
    ensures CountWide(Cards(live)) == (|live| + 4) / 5
    decreases |live|
  {
    if live != [] {
      var n := |live|;
      var front := live[..n - 1];
      WideTileCount(front);
      assert Cards(live)[..n - 1] == Cards(front);
      assert Cards(live)[n - 1].wide <==> (n - 1) % 5 == 0;
    }
  }

  /** The page that the state selects. */
  function Render(s: AppState): (screen: Screen)
    ensures screen.LoadingScreen? <==> s.loading
    ensures screen.Unavailable? <==> !s.loading && s.apiData.None?
    ensures screen.Dashboard? <==> !s.loading && s.apiData.Some?
    ensures screen.Dashboard? ==> screen.total == s.cagnotte && screen.cards == Cards(s.apiData.value.live)
  {
    if s.loading then LoadingScreen
    else if s.apiData.None? then Unavailable
    else Dashboard(s.cagnotte, Cards(s.apiData.value.live))
  }

  /** From the initial state: the loading screen until the first poll ends,
      "unavailable" while no poll has succeeded, the dashboard afterwards. */
  lemma RenderAfterEvents(es: seq<Event>)
    ensures Render(Run(Initial(), es)).LoadingScreen? <==> !HasPoll(es)
    ensures Render(Run(Initial(), es)).Unavailable? <==> HasPoll(es) && !HasSuccess(es)
    ensures Render(Run(Initial(), es)).Dashboard? <==> HasSuccess(es)
  {
    LoadingAfterRun(Initial(), es);
    SnapshotAfterRun(Initial(), es);
  }

  /** Once the dashboard is shown, no event sequence (failures included)
      brings back the loading or the unavailable screen. */
  lemma DashboardStays(s: AppState, es: seq<Event>)
    requires Render(s).Dashboard?
    ensures Render(Run(s, es)).Dashboard?
  {
    LoadingAfterRun(s, es);
    SnapshotAfterRun(s, es);
  }

  /** `renderSpinningNumbers`: one span per character of the formatted total. */
  function SpinNumbers(formattedAmount: string, animate: bool): (spans: seq<SpinDigit>)
    ensures |spans| == |formattedAmount|
    ensures forall i :: 0 <= i < |spans| ==>
              spans[i].key == i && spans[i].ch == formattedAmount[i] && spans[i].animate == animate
  {
    seq(|formattedAmount|, i requires 0 <= i < |formattedAmount| => SpinDigit(i, formattedAmount[i], animate))
  }

  /** The text the spans display, read left to right. */
  function Text(spans: seq<SpinDigit>): string
    decreases |spans|
  {
    if spans == [] then [] else Text(spans[..|spans| - 1]) + [spans[|spans| - 1].ch]
  }

  lemma {:induction false} TextOfCharacters(spans: seq<SpinDigit>, s: string)
    requires |spans| == |s|
    requires forall i :: 0 <= i < |s| ==> spans[i].ch == s[i]
    ensures Text(spans) == s
    decreases |s|
  {
    if s != [] {
      TextOfCharacters(spans[..|s| - 1], s[..|s| - 1]);
      assert s == s[..|s| - 1] + [s[|s| - 1]];
    }
  }

  /** The spans show the formatted total exactly, character for character. */
  lemma SpinNumbersRoundTrip(formattedAmount: string, animate: bool)
    ensures Text(SpinNumbers(formattedAmount, animate)) == formattedAmount
  {
    TextOfCharacters(SpinNumbers(formattedAmount, animate), formattedAmount);
  }
}
