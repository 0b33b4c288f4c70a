/** Redelivered payment webhooks. */
module Webhooks {
  import opened Records
  import opened Runs
  import opened Soundness
  import opened Steps

  /** The ids of the events delivered in a run. */
  function Delivered(actions: seq<Action>): set<string> {
    set a | a in actions && a.DoWebhook? :: a.eventId
  }

  /** The run without the deliveries whose event id was delivered before. */
  function FirstDeliveries(actions: seq<Action>): seq<Action> {
    if actions == [] then []
    else
      var before, a := actions[..|actions| - 1], actions[|actions| - 1];
      if a.DoWebhook? && a.eventId in Delivered(before) then FirstDeliveries(before)
      else FirstDeliveries(before) + [a]
  }

  lemma DeliveredLast(actions: seq<Action>)
    requires actions != []
    ensures var before, a := actions[..|actions| - 1], actions[|actions| - 1];
            Delivered(actions) == if a.DoWebhook? then Delivered(before) + {a.eventId} else Delivered(before)
  {
    var before, a := actions[..|actions| - 1], actions[|actions| - 1];
    assert actions == before + [a];
  }

  lemma StepEvents(s: State, a: Action)
    requires Sound(s)
    ensures Apply(s, a).events == if a.DoWebhook? then s.events + {a.eventId} else s.events
  {
    if a.DoWebhook? {
      WebhookStep(s, a.eventId, a.body, a.today);
    } else {
      hide Sound;
      StepSound(s, a);
    }
  }

  lemma {:induction false} EventsOfRun(actions: seq<Action>)
    ensures Run(EMPTY, actions).events == Delivered(actions)
  {
    if actions != [] {
      var before, a := actions[..|actions| - 1], actions[|actions| - 1];
      hide Sound, Apply, Delivered;
      EventsOfRun(before);
      DeliveredLast(actions);
      RunSound(before);
      StepEvents(Run(EMPTY, before), a);
    }
  }

  lemma RedeliveryIsNoop(s: State, a: Action)
    requires a.DoWebhook? && a.eventId in s.events
    ensures Apply(s, a) == s
  {
  }

  /** Any run, other activity interleaved, ends in the state of the run that keeps only the first
      delivery of each event id: a redelivery is never applied, even when the first one failed. */
  lemma {:induction false} RedeliveriesIgnored(actions: seq<Action>)
    ensures Run(EMPTY, actions) == Run(EMPTY, FirstDeliveries(actions))
  {
    if actions != [] {
      hide Apply, Delivered;
      var before, a := actions[..|actions| - 1], actions[|actions| - 1];
      RedeliveriesIgnored(before);
      EventsOfRun(before);
      if a.DoWebhook? && a.eventId in Delivered(before) {
        RedeliveryIsNoop(Run(EMPTY, before), a);
      } else {
        assert (FirstDeliveries(before) + [a])[..|FirstDeliveries(before)|] == FirstDeliveries(before);
      }
    }
  }

  lemma {:induction false} FirstDeliveriesDistinct(actions: seq<Action>, i: nat, j: nat)
    requires i < j < |FirstDeliveries(actions)|
    ensures Delivered(FirstDeliveries(actions)) == Delivered(actions)
    ensures var kept := FirstDeliveries(actions);
            kept[i].DoWebhook? && kept[j].DoWebhook? ==> kept[i].eventId != kept[j].eventId
  {
    KeptIds(actions);
    var before, a := actions[..|actions| - 1], actions[|actions| - 1];
    KeptIds(before);
    var kept := FirstDeliveries(before);
    if j < |kept| {
      FirstDeliveriesDistinct(before, i, j);
    } else if kept[i].DoWebhook? {
      assert kept[i].eventId in Delivered(kept);
    }
  }

  lemma {:induction false} KeptIds(actions: seq<Action>)
    ensures Delivered(FirstDeliveries(actions)) == Delivered(actions)
  {
    if actions != [] {
      var before, a := actions[..|actions| - 1], actions[|actions| - 1];
      KeptIds(before);
      DeliveredLast(actions);
      if !(a.DoWebhook? && a.eventId in Delivered(before)) {
        DeliveredLast(FirstDeliveries(actions));
        assert FirstDeliveries(actions)[..|FirstDeliveries(before)|] == FirstDeliveries(before);
      }
    }
  }
}
