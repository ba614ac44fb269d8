/**
  Webhooks: the set loaded from `webhooks.json`, the selection of the ones
  registered for a device, and the loop that calls them.
 */
module Webhooks {
  import opened Model

  /**
    The stored webhooks after construction. The JSON array is read into a
    set, so identical (device id, url) pairs collapse; a missing or unparsable
    file gives the empty set.
   */
  function Load(file: ConfigFile<seq<Webhook>>): (r: set<Webhook>)
    ensures file.Parsed? ==> forall w :: w in r <==> w in file.value
    ensures !file.Parsed? ==> r == {}
  {
    match file
    case Parsed(list) => set w | w in list
    case _ => {}
  }

  /** An entry repeated in the file is stored once: repeating it changes nothing. */
  lemma {:induction false} DuplicatesCollapse(list: seq<Webhook>, w: Webhook)
    requires w in list
    ensures Load(Parsed(list + [w])) == Load(Parsed(list))
  {
    assert forall x :: x in list + [w] <==> x in list;
  }

  /**
    `findForDevice`: exactly the stored webhooks whose device id is the
    argument; empty when none targets the device.
   */
  function FindForDevice(webhooks: set<Webhook>, id: DeviceId): (r: set<Webhook>)
    ensures r <= webhooks
    ensures forall w :: w in webhooks ==> (w in r <==> w.deviceId == id)
  {
    set w | w in webhooks && w.deviceId == id
  }

  /** How one HTTP call ends: a successful response, another response, or an exception. */
  datatype HttpOutcome = Successful | Unsuccessful | Throws

  /**
    What one `triggerWebhook(id)` does, given the outcome each call would have
    and the calls made, in order: only webhooks registered for the device are
    called, each at most once; a response that is not successful does not stop
    the loop, only an exception does, and that exception ends it; without an
    exception every registered webhook is called.
   */
  ghost predicate Triggered(webhooks: set<Webhook>, id: DeviceId, call: Webhook -> HttpOutcome, calls: seq<Webhook>) {
    && (forall i :: 0 <= i < |calls| ==> calls[i] in FindForDevice(webhooks, id))
    && (forall i, j :: 0 <= i < j < |calls| ==> calls[i] != calls[j])
    && (forall i :: 0 <= i < |calls| - 1 ==> call(calls[i]) != Throws)
    && ((forall i :: 0 <= i < |calls| ==> call(calls[i]) != Throws) ==>
          forall w :: w in FindForDevice(webhooks, id) ==> w in calls)
  }

  /**
    `triggerWebhook`: calls the device's webhooks one by one, in the order the
    set yields them (left open here), and reports whether an exception ended
    the loop. The exception is caught and never reaches the caller.
   */
  method TriggerWebhook(webhooks: set<Webhook>, id: DeviceId, call: Webhook -> HttpOutcome)
    returns (calls: seq<Webhook>, aborted: bool)
    ensures Triggered(webhooks, id, call, calls)
    ensures aborted <==> exists i :: 0 <= i < |calls| && call(calls[i]) == Throws
  {
    var selected := FindForDevice(webhooks, id);
    var remaining := selected;
    calls := [];
    aborted := false;
    while remaining != {}
      invariant remaining <= selected
      invariant forall i :: 0 <= i < |calls| ==> calls[i] in selected && calls[i] !in remaining
      invariant forall i, j :: 0 <= i < j < |calls| ==> calls[i] != calls[j]
      invariant forall i :: 0 <= i < |calls| ==> call(calls[i]) != Throws
      invariant forall w :: w in selected ==> w in remaining || w in calls
      decreases |remaining|
    {
      var w :| w in remaining;
      calls := calls + [w];
      remaining := remaining - {w};
      if call(w) == Throws {
        aborted := true;
        assert call(calls[|calls| - 1]) == Throws;
        return;
      }
    }
  }
}
