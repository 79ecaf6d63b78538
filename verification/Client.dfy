/** The client's half of the protocol (examples/scan.ts:49-124, 163-170): ids given out, frames
    told apart by them, and the latest document of each host kept.

    `ClientState` is the client as a value with the one change each of its calls makes; the
    class holds the same fields. A promise and the callback of a watch are kept as what they
    were called with: `settled` and `heard`. */
module Client {
  import opened EventLog
  import opened Lines
  import opened Speak
  import opened Wrappers

  datatype Outcome = Resolved(text: Text) | Rejected(text: Text)

  datatype ClientState = ClientState(
    next: nat, answers: set<nat>, streams: set<nat>,
    heard: map<nat, seq<Event>>, settled: map<nat, seq<Outcome>>, asked: seq<Line>)

  const FRESH := ClientState(1, {}, {}, map[], map[], [])

  /** Asking registers the handlers first and writes the question after. */
  function Asking(c: ClientState, watching: bool): ClientState {
    var id := c.next;
    ClientState(id + 1, c.answers + {id}, if watching then c.streams + {id} else c.streams,
                c.heard[id := []], c.settled[id := []], c.asked + [Ask(Id(id), watching)])
  }

  function OutcomeOf(frame: Frame): Outcome {
    if frame.saying.Refusal? then Rejected(frame.text) else Resolved(frame.text)
  }

  function Hearing(c: ClientState, id: nat, event: Event): ClientState {
    if id in c.streams && id in c.heard then c.(heard := c.heard[id := c.heard[id] + [event]]) else c
  }

  /** Both handlers go as the promise settles. */
  function Settling(c: ClientState, id: nat, outcome: Outcome): ClientState {
    if id in c.answers && id in c.settled
    then c.(answers := c.answers - {id}, streams := c.streams - {id},
            settled := c.settled[id := c.settled[id] + [outcome]])
    else c
  }

  /** One frame. A label that is null, or that nobody here gave out, is passed over. */
  function OnLine(c: ClientState, frame: Frame): ClientState {
    match frame.tag
    case Null => c
    case Other(_) => c
    case Id(id) =>
      if frame.saying.Happened? then Hearing(c, id, frame.saying.event) else Settling(c, id, OutcomeOf(frame))
  }

  /** Ids are given out in order, and nothing is kept for one that was not. */
  ghost predicate Sound(c: ClientState) {
    && c.next == |c.asked| + 1
    && (forall k :: 0 <= k < |c.asked| ==> c.asked[k].Ask? && c.asked[k].tag == Id(k + 1))
    && (forall id :: id in c.heard <==> 1 <= id < c.next)
    && (forall id :: id in c.settled <==> 1 <= id < c.next)
    && c.streams <= c.answers <= c.heard.Keys
  }

  /** One promise settled, and no other touched. */
  predicate SettlesWith(before: map<nat, seq<Outcome>>, after: map<nat, seq<Outcome>>, id: nat, outcome: Outcome) {
    id in before && after == before[id := before[id] + [outcome]]
  }

  lemma StaysSound(c: ClientState, watching: bool, frame: Frame)
    requires Sound(c)
    ensures Sound(Asking(c, watching)) && Sound(OnLine(c, frame))
  {
  }

  class Zond {
    var next: nat
    var answers: set<nat>
    var streams: set<nat>
    var heard: map<nat, seq<Event>>
    var settled: map<nat, seq<Outcome>>
    var asked: seq<Line>

    ghost predicate Valid() reads this { Sound(View()) }

    function View(): ClientState reads this { ClientState(next, answers, streams, heard, settled, asked) }

    constructor ()
      ensures Valid() && View() == FRESH
    {
      next, answers, streams, heard, settled, asked := 1, {}, {}, map[], map[], [];
    }

    /** scan.ts:73-87 */
    method Call() returns (id: nat)
      requires Valid()
      modifies this
      ensures Valid() && View() == Asking(old(View()), false) && id == old(next)
    {
      id := next;
      next := next + 1;
      settled := settled[id := []];
      heard := heard[id := []];
      answers := answers + {id};
      asked := asked + [Ask(Id(id), false)];
    }

    /** scan.ts:107-123 */
    method Watch() returns (id: nat)
      requires Valid()
      modifies this
      ensures Valid() && View() == Asking(old(View()), true) && id == old(next)
    {
      id := next;
      next := next + 1;
      settled := settled[id := []];
      heard := heard[id := []];
      streams := streams + {id};
      answers := answers + {id};
      asked := asked + [Ask(Id(id), true)];
    }

    /** scan.ts:59-65 */
    method Receive(frame: Frame)
      requires Valid()
      modifies this
      ensures Valid() && View() == OnLine(old(View()), frame)
      ensures frame.tag.Id? && frame.tag.number in old(answers) && frame.saying.Refusal? ==>
                SettlesWith(old(settled), settled, frame.tag.number, Rejected(frame.text))
      ensures frame.tag.Id? && frame.tag.number in old(answers) && (frame.saying.Value? || frame.saying.End?) ==>
                SettlesWith(old(settled), settled, frame.tag.number, Resolved(frame.text))
    {
      StaysSound(View(), false, frame);
      if !frame.tag.Id? {
        return;
      }
      var id := frame.tag.number;
      if frame.saying.Happened? {
        if id in streams {
          heard := heard[id := heard[id] + [frame.saying.event]];
        }
      } else if id in answers {
        answers := answers - {id};
        streams := streams - {id};
        settled := settled[id := settled[id] + [OutcomeOf(frame)]];
      }
    }
  }

  // ---------------------------------------------------------------------------
  // The hosts, latest of each
  // ---------------------------------------------------------------------------

  function Kept(hosts: map<Address, Document>, event: Event): map<Address, Document> {
    if event.body.Host? then hosts[event.body.address := event.body.document] else hosts
  }

  /** A map that holds of each address its latest document, and no other address. */
  ghost predicate HoldsLatest(hosts: map<Address, Document>, events: seq<Event>) {
    forall a :: LastDocument(events, a) == if a in hosts then Some(hosts[a]) else None
  }

  lemma KeepingHoldsLatest(hosts: map<Address, Document>, events: seq<Event>, event: Event)
    requires HoldsLatest(hosts, events)
    ensures HoldsLatest(Kept(hosts, event), events + [event])
  {
    assert (events + [event])[..|events + [event]| - 1] == events;
  }

  class HostMap {
    var hosts: map<Address, Document>
    ghost var told: seq<Event>

    ghost predicate Valid() reads this { HoldsLatest(hosts, told) }

    constructor ()
      ensures Valid() && told == []
    {
      hosts, told := map[], [];
    }

    /** scan.ts:169-170: a host event replaces what was held for it. */
    method OnEvent(event: Event)
      requires Valid()
      modifies this
      ensures Valid() && told == old(told) + [event]
    {
      KeepingHoldsLatest(hosts, told, event);
      if event.body.Host? {
        hosts := hosts[event.body.address := event.body.document];
      }
      told := told + [event];
    }

    /** Every event of a watch, one after the other. */
    method OnEvents(events: seq<Event>)
      requires Valid()
      modifies this
      ensures Valid() && told == old(told) + events
    {
      for i := 0 to |events|
        invariant Valid() && told == old(told) + events[..i]
      {
        OnEvent(events[i]);
      }
      assert events[..|events|] == events;
    }
  }
}
