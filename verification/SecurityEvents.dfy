/** Security events as both services record them, and how they match the stored rows. */
module SecurityEvents {
  import opened VersionStore

  /** One document of a security-event collection. */
  datatype SecurityEvent<+A> = SecurityEvent(action: A, success: bool, actor: string, subject: Key)

  /** Events of excluded subjects are not written. */
  function Recorded<A>(events: seq<SecurityEvent<A>>, excluded: set<string>, e: SecurityEvent<A>): seq<SecurityEvent<A>> {
    if e.actor in excluded then events else events + [e]
  }

  /** One event more, unless the subject is one whose events are not kept. */
  ghost predicate Logs<A>(before: seq<SecurityEvent<A>>, after: seq<SecurityEvent<A>>, excluded: set<string>, action: A,
                          success: bool, who: string, subject: Key)
  {
    && (who in excluded ==> after == before)
    && (who !in excluded ==> after == before + [SecurityEvent(action, success, who, subject)])
  }

  /** The successful mutation events, as (entity, version) pairs. */
  ghost function Mutations<A>(events: seq<SecurityEvent<A>>): multiset<Key> {
    if events == [] then multiset{}
    else
      var last := events[|events| - 1];
      Mutations(events[..|events| - 1]) + if last.success then multiset{last.subject} else multiset{}
  }

  /** One event per row that is to be recorded, and none without its row. */
  ghost predicate OneEventPerRow<P>(rows: Rows<P>, events: multiset<Key>, recorded: P -> bool) {
    forall k: Key :: events[k] == if k in rows && recorded(rows[k].payload) then 1 else 0
  }

  function NotExcluded<P>(author: P -> string, excluded: set<string>): P -> bool {
    (p: P) => author(p) !in excluded
  }

  /** One mutation event per row written by a recorded subject, and none without its row. */
  ghost predicate EventsMatch<A, P>(rows: Rows<P>, author: P -> string, events: seq<SecurityEvent<A>>, excluded: set<string>) {
    OneEventPerRow(rows, Mutations(events), NotExcluded(author, excluded))
  }

  /** A failed call's event is no mutation; a successful one names exactly the row it adds. */
  lemma {:induction false} EventKeepsMatch<A, P>(rows: Rows<P>, after: Rows<P>, author: P -> string, events: seq<SecurityEvent<A>>,
                                                 excluded: set<string>, e: SecurityEvent<A>)
    requires EventsMatch(rows, author, events, excluded)
    requires forall k: Key :: k in rows ==> k in after && after[k].payload == rows[k].payload
    requires after.Keys == if e.success then rows.Keys + {e.subject} else rows.Keys
    requires e.success ==> e.subject !in rows && author(after[e.subject].payload) == e.actor
    ensures EventsMatch(after, author, Recorded(events, excluded, e), excluded)
  {
    assert (events + [e])[..|events|] == events;
  }
}
