/** The App component as an object: its six state variables are fields and
    the state-changing code of `fetchData` and of the animation timeout are
    methods that update them in place. Each method is proved to perform the
    transition that the Polling module defines. */
module AppComponent {

  import opened Wrappers
  import opened ApiTypes
  import opened Polling
  import opened Render

  class App {
    var loading: bool
    var apiData: Option<ApiData>
    var previousDonationAmount: Option<int>
    var animate: bool
    var initialLoad: bool
    var cagnotte: Option<int>

    /** The current values of all six state variables. */
    function State(): AppState
      reads this
    {
      AppState(loading, apiData, previousDonationAmount, animate, initialLoad, cagnotte)
    }

    /** Mounting: the initial values given to `useState`. */
    constructor ()
      ensures State() == Initial()
      ensures loading && initialLoad && !animate && apiData.None?
    {
      loading := true;
      apiData := None;
      previousDonationAmount := None;
      animate := false;
      initialLoad := true;
      cagnotte := None;
    }

    /** The start of `fetchData`, before the request is awaited. */
    method StartPoll()
      modifies this
      ensures State() == BeginPoll(old(State()))
      ensures loading == (old(initialLoad) || old(loading))
      ensures Inv(old(State())) ==> Inv(State())
    {
      if initialLoad {
        loading := true;
      }
    }

    /** The rest of `fetchData`, once the request has produced `outcome`. */
    method FinishPoll(outcome: PollOutcome)
      modifies this
      ensures State() == Settle(old(State()), outcome)
      ensures !loading && !initialLoad
      ensures Accepts(old(State()), outcome) ==> apiData == Some(outcome.data) && cagnotte == TotalOf(outcome.data)
      ensures !Accepts(old(State()), outcome) ==>
                apiData == old(apiData) && cagnotte == old(cagnotte) &&
                previousDonationAmount == old(previousDonationAmount) && animate == old(animate)
      ensures Inv(old(State())) ==> Inv(State())
    {
      match outcome {
        case Success(data) =>
          // `threw` stands for the TypeError raised by the comparison when a
          // total is missing; the `catch` then skips the rest of the block.
          var threw := false;
          if apiData.Some? {
            if data.donationAmount.None? || apiData.value.donationAmount.None? {
              threw := true;
            } else if data.donationAmount.value.number != apiData.value.donationAmount.value.number {
              previousDonationAmount := Some(apiData.value.donationAmount.value.number);
              animate := true;
            }
          }
          if !threw {
            apiData := Some(data);
            cagnotte := TotalOf(data);
          }
        case Failure =>
      }
      loading := false;
      initialLoad := false;
    }

    /** One whole call of `fetchData`. */
    method FetchData(outcome: PollOutcome)
      modifies this
      ensures State() == PollOnce(old(State()), outcome)
      ensures Inv(old(State())) ==> Inv(State())
    {
      ghost var before := State();
      StartPoll();
      FinishPoll(outcome);
      if Inv(before) {
        StepPreservesInv(before, Poll(outcome));
      }
    }

    /** The callback scheduled with `setTimeout` when the total changed. */
    method ClearAnimation()
      modifies this
      ensures State() == Timeout(old(State()))
      ensures !animate
      ensures Inv(old(State())) ==> Inv(State())
    {
      animate := false;
    }

    /** The page rendered from the current state. */
    method View() returns (screen: Screen)
      ensures screen == Render.Render(State())
      ensures screen.LoadingScreen? <==> loading
      ensures screen.Unavailable? <==> !loading && apiData.None?
      ensures screen.Dashboard? ==> screen.total == cagnotte && screen.cards == Cards(apiData.value.live)
    {
      if loading {
        screen := LoadingScreen;
      } else if apiData.None? {
        screen := Unavailable;
      } else {
        screen := Dashboard(cagnotte, Cards(apiData.value.live));
      }
    }

    /** `renderSpinningNumbers`, which reads the current `animate` flag. */
    function RenderSpinningNumbers(formattedAmount: string): (spans: seq<SpinDigit>)
      reads this
      ensures |spans| == |formattedAmount|
      ensures forall i :: 0 <= i < |spans| ==> spans[i].ch == formattedAmount[i] && spans[i].animate == animate
    {
      SpinNumbers(formattedAmount, animate)
    }
  }

  /** The scenario of a first poll, a changed total, the timeout and a failed
      poll, replayed on an App object. */
  method ChangeThenFailure(d1: ApiData, d2: ApiData) returns (app: App)
    requires d1.donationAmount.Some? && d1.donationAmount.value.number == 1000
    requires d2.donationAmount.Some? && d2.donationAmount.value.number == 1200
    ensures app.apiData == Some(d2) && app.cagnotte == Some(1200)
    ensures app.previousDonationAmount == Some(1000) && !app.animate && !app.loading
  {
    app := new App();
    app.FetchData(Success(d1));
    assert !app.animate && app.cagnotte == Some(1000);
    app.FetchData(Success(d2));
    assert app.animate && app.previousDonationAmount == Some(1000);
    app.ClearAnimation();
    app.FetchData(Failure);
  }
}
