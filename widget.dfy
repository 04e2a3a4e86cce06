/** The state of the Activity widget and what each request completion does
    to it. Requests themselves are not modelled: a completion receives the
    outcome of its request, and every way a request can fail (a non-ok HTTP
    status, a network error, a body that is not JSON) is one `Failure`. */
module Widget {
  import opened Tally
  import opened Chart

  datatype Option<T> = None | Some(value: T)

  /** The outcome of one request as its completion callback sees it. */
  datatype Response<T> = Success(data: T) | Failure

  /** The body the activity service returns. */
  datatype ActivityResult =
    ActivityResult(activity: string, activityType: string, participants: int, link: Option<string>)

  /** The body the joke service returns (only `value` is read). */
  datatype JokeResult = JokeResult(value: string)

  /** The object an activity card displays; a field the object lacks is `None`. */
  datatype ActivityDetails =
    ActivityDetails(activity: Option<string>, activityType: Option<string>,
                    participants: Option<int>, link: Option<string>)

  /** `{}`: what a card holds before its first completion. */
  const NoDetails := ActivityDetails(None, None, None, None)

  const ActivityFailureText := "Failed to fetch new activity. Please try again!"

  /** `{activity: ActivityFailureText}`: what a card holds after a failed request. */
  const FailedDetails := ActivityDetails(Some(ActivityFailureText), None, None, None)

  const JokePrompt := "Click the button to hear a joke!"

  const JokeFailureText := "Failed to fetch a joke. Please try again!"

  /** A successful response body, stored as the card's object. */
  function Details(data: ActivityResult): ActivityDetails
  {
    ActivityDetails(Some(data.activity), Some(data.activityType), Some(data.participants), data.link)
  }

  /** The two activity cards: solo requests one participant, group two. */
  datatype Card = Solo | Group

  class ActivityWidget {
    var soloActivityDetails: ActivityDetails
    var groupActivityDetails: ActivityDetails
    var activityTypes: Tally
    var joke: string

    /** The types of the successful activity completions so far, in order. */
    ghost var successes: seq<string>

    /** The tally is exactly what the successful completions built. */
    ghost predicate Valid()
      reads this
    {
      activityTypes == TallyOf(successes)
    }

    /** The object shown on `card`. */
    function Shown(card: Card): ActivityDetails
      reads this
    {
      match card
      case Solo => soloActivityDetails
      case Group => groupActivityDetails
    }

    /** The initial state: empty cards, an empty tally and the joke prompt. */
    constructor ()
      ensures Valid()
      ensures soloActivityDetails == NoDetails && groupActivityDetails == NoDetails
      ensures activityTypes == [] && successes == []
      ensures joke == JokePrompt
    {
      soloActivityDetails := NoDetails;
      groupActivityDetails := NoDetails;
      activityTypes := [];
      joke := JokePrompt;
      successes := [];
    }

    /** The completion of an activity request for `card`. On success the
        card shows the body and the body's type is counted once more; on
        failure the card shows the failure object and the tally is left
        alone. The other card and the joke never change. */
    method CompleteActivity(card: Card, response: Response<ActivityResult>)
      requires Valid()
      modifies this
      ensures Valid()
      ensures response.Success? ==>
        && Shown(card) == Details(response.data)
        && activityTypes == Increment(old(activityTypes), response.data.activityType)
        && successes == old(successes) + [response.data.activityType]
      ensures response.Failure? ==>
        && Shown(card) == FailedDetails
        && activityTypes == old(activityTypes)
        && successes == old(successes)
      ensures card == Solo ==> groupActivityDetails == old(groupActivityDetails)
      ensures card == Group ==> soloActivityDetails == old(soloActivityDetails)
      ensures joke == old(joke)
    {
      if response.Success? {
        var data := response.data;
        ghost var before := successes;
        activityTypes := Increment(activityTypes, data.activityType);
        successes := successes + [data.activityType];
        assert Valid() by {
          TallyOfAppend(before, data.activityType);
        }
        if card == Solo {
          soloActivityDetails := Details(data);
        } else {
          groupActivityDetails := Details(data);
        }
      } else if card == Solo {
        soloActivityDetails := FailedDetails;
      } else {
        groupActivityDetails := FailedDetails;
      }
    }

    /** The completion of a joke request: the joke becomes the body's
        `value`, or the failure text. Nothing else changes. */
    method CompleteJoke(response: Response<JokeResult>)
      requires Valid()
      modifies this
      ensures Valid()
      ensures joke == match response
                      case Success(data) => data.value
                      case Failure => JokeFailureText
      ensures soloActivityDetails == old(soloActivityDetails)
      ensures groupActivityDetails == old(groupActivityDetails)
      ensures activityTypes == old(activityTypes) && successes == old(successes)
    {
      match response {
        case Success(data) => joke := data.value;
        case Failure => joke := JokeFailureText;
      }
    }

    /** Every count in the tally is at least 1, no type is a key twice, and
        the counts add up to the number of successful activity completions. */
    lemma TallyInvariant()
      requires Valid()
      ensures WellFormed(activityTypes)
      ensures Sum(activityTypes) == |successes|
    {
      TallyOfWellFormed(successes);
      TallyOfSum(successes);
    }

    /** The chart data of the current render: one bar per type seen, in
        first-seen order, each as high as the number of successful
        completions of that type. */
    function ActivityChartData(): (c: ChartSeries)
      requires Valid()
      reads this
      ensures |c.labels| == |c.data|
      ensures forall name :: name in c.labels <==> name in successes
      ensures forall i :: 0 <= i < |c.data| ==> 1 <= c.data[i] == multiset(successes)[c.labels[i]]
      ensures FirstSeenOrder(c.labels, successes)
    {
      ChartOfHistory(successes);
      ChartData(activityTypes)
    }
  }

  /** A run of completions as a user might trigger them, and what a caller
      can conclude from the contracts alone. */
  method Session()
  {
    var w := new ActivityWidget();
    var tennis := ActivityResult("Play tennis", "recreational", 1, None);
    w.CompleteActivity(Solo, Success(tennis));
    assert w.Shown(Solo) == Details(tennis);
    assert w.activityTypes == [Entry("recreational", 1)];

    var wasSolo := w.soloActivityDetails;
    var picnic := ActivityResult("Have a picnic", "recreational", 2, None);
    w.CompleteActivity(Group, Success(picnic));
    assert w.soloActivityDetails == wasSolo;
    assert w.activityTypes == [Entry("recreational", 2)];
    assert ChartData(w.activityTypes) == ChartSeries(["recreational"], [2]);

    w.CompleteActivity(Solo, Failure);
    assert w.soloActivityDetails == FailedDetails;
    assert w.activityTypes == [Entry("recreational", 2)];

    w.CompleteJoke(Success(JokeResult("Chuck Norris can slam a revolving door.")));
    assert w.joke == "Chuck Norris can slam a revolving door.";
    assert w.activityTypes == [Entry("recreational", 2)];
  }
}
