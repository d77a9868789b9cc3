/** The bounded memory of inbound messages that makes their delivery idempotent. */
module InboundCache {
  import opened Messages
  import opened Text

  datatype Source = Source(kind: string, id: string)

  datatype Key = Key(session: string, source: string, external: string)

  datatype Record = Record(key: Key, eventId: string)

  const MAX_KEYS: nat := 2048

  function SourceKey(source: Source): string {
    source.kind + ":" + (if source.id != "" then source.id else "default")
  }

  function MakeKey(session: string, source: Source, external: string): Key {
    Key(Strip(session), SourceKey(source), Strip(external))
  }

  /** Two deliveries share a key only if they agree on the session and on the message, white space at the ends
      aside, and come from the same source, a source without an id standing for the default one. */
  lemma KeysAgreeIff(s: string, a: Source, m: string, s': string, a': Source, m': string)
    ensures MakeKey(s, a, m) == MakeKey(s', a', m')
            <==> Strip(s) == Strip(s') && Strip(m) == Strip(m') && SourceKey(a) == SourceKey(a')
    ensures a.kind == a'.kind ==>
              (SourceKey(a) == SourceKey(a')
               <==> (if a.id == "" then "default" else a.id) == (if a'.id == "" then "default" else a'.id))
    ensures ':' !in a.kind && ':' !in a'.kind && SourceKey(a) == SourceKey(a') ==> a.kind == a'.kind
  {
    var x, y := if a.id == "" then "default" else a.id, if a'.id == "" then "default" else a'.id;
    SplitsAtColon(a.kind, x, a'.kind, y);
  }

  lemma SplitsAtColon(a: string, x: string, b: string, y: string)
    ensures a == b ==> (a + ":" + x == b + ":" + y <==> x == y)
    ensures ':' !in a && ':' !in b && a + ":" + x == b + ":" + y ==> a == b
  {
    var l, r := a + ":" + x, b + ":" + y;
    assert l[..|a|] == a && l[|a|] == ':' && l[|a| + 1..] == x;
    assert r[..|b|] == b && r[|b|] == ':' && r[|b| + 1..] == y;
    assert |a| < |b| ==> r[|a|] == b[|a|];
    assert |b| < |a| ==> l[|b|] == a[|b|];
  }

  // ---------------------------------------------------------------------------------------------
  // The unbounded log, and what of it is remembered
  // ---------------------------------------------------------------------------------------------

  /** The newest records of a log. */
  function Newest<T>(log: seq<T>): (r: seq<T>)
    ensures |r| == (if |log| < 2048 then |log| else 2048) && r == log[|log| - |r|..]
    ensures |r| < MAX_KEYS ==> r == log
  {
    if |log| > MAX_KEYS then log[|log| - MAX_KEYS..] else log
  }

  /** The event id a list of records holds for a key, or none. */
  function Lookup(records: seq<Record>, key: Key): Option<string> {
    if records == [] then None
    else if records[|records| - 1].key == key then Some(records[|records| - 1].eventId)
    else Lookup(records[..|records| - 1], key)
  }

  function Recalled(log: seq<Record>, key: Key): Option<string> {
    Lookup(Newest(log), key)
  }

  /** The log after a message is remembered: it grows only by a key that is not remembered already. */
  function Remembered(log: seq<Record>, key: Key, eventId: string): seq<Record> {
    if key.external == "" || eventId == "" || Recalled(log, key).Some? then log else log + [Record(key, eventId)]
  }

  function Keys(records: seq<Record>): (ks: seq<Key>)
    ensures |ks| == |records| && forall i :: 0 <= i < |ks| ==> ks[i] == records[i].key
  {
    seq(|records|, i requires 0 <= i < |records| => records[i].key)
  }

  predicate KeysDiffer(records: seq<Record>) {
    forall i, j :: 0 <= i < j < |records| ==> records[i].key != records[j].key
  }

  predicate IdsPresent(records: seq<Record>) {
    forall i :: 0 <= i < |records| ==> records[i].eventId != "" && records[i].key.external != ""
  }

  /** The remembered records never repeat a key, and hold no empty id. */
  predicate Sound(log: seq<Record>) {
    IdsPresent(log) && KeysDiffer(Newest(log))
  }

  lemma {:induction false} LookupAt(records: seq<Record>, i: nat)
    requires i < |records| && KeysDiffer(records)
    ensures Lookup(records, records[i].key) == Some(records[i].eventId)
  {
    if i < |records| - 1 { LookupAt(records[..|records| - 1], i); }
  }

  lemma {:induction false} LookupMissing(records: seq<Record>, key: Key)
    ensures Lookup(records, key).None? <==> forall i :: 0 <= i < |records| ==> records[i].key != key
  {
    if |records| > 0 {
      var init := records[..|records| - 1];
      LookupMissing(init, key);
      assert forall i :: 0 <= i < |init| ==> init[i] == records[i];
    }
  }

  lemma NewestSnoc(log: seq<Record>, r: Record)
    ensures var was, now := Newest(log), Newest(log + [r]);
            now == (if |was| == MAX_KEYS then was[1..] else was) + [r]
  {
  }

  lemma DifferSnoc(was: seq<Record>, r: Record, now: seq<Record>)
    requires KeysDiffer(was) && forall i :: 0 <= i < |was| ==> was[i].key != r.key
    requires now == was + [r] || (|was| > 0 && now == was[1..] + [r])
    ensures KeysDiffer(now)
  {
  }

  lemma SoundStep(log: seq<Record>, key: Key, eventId: string)
    requires Sound(log)
    ensures Sound(Remembered(log, key, eventId))
  {
    if key.external != "" && eventId != "" && Recalled(log, key).None? {
      SoundSnoc(log, Record(key, eventId));
    }
  }

  lemma SoundSnoc(log: seq<Record>, r: Record)
    requires Sound(log) && Recalled(log, r.key).None? && r.eventId != "" && r.key.external != ""
    ensures Sound(log + [r])
  {
    LookupMissing(Newest(log), r.key);
    NewestSnoc(log, r);
    DifferSnoc(Newest(log), r, Newest(log + [r]));
  }

  // ---------------------------------------------------------------------------------------------
  // How long a message is remembered
  // ---------------------------------------------------------------------------------------------

  function Log(log: seq<Record>, deliveries: seq<Record>): seq<Record> {
    if deliveries == [] then log
    else
      var d := deliveries[|deliveries| - 1];
      Remembered(Log(log, deliveries[..|deliveries| - 1]), d.key, d.eventId)
  }

  lemma {:induction false} LogGrows(log: seq<Record>, deliveries: seq<Record>)
    requires Sound(log)
    ensures Sound(Log(log, deliveries)) && log <= Log(log, deliveries)
  {
    if deliveries != [] {
      var d := deliveries[|deliveries| - 1];
      LogGrows(log, deliveries[..|deliveries| - 1]);
      SoundStep(Log(log, deliveries[..|deliveries| - 1]), d.key, d.eventId);
    }
  }

  /** A key keeps returning the event id it was first remembered with, through any deliveries, as long as fewer
      than 2048 newer keys have been remembered. */
  lemma FirstIdIsKept(log: seq<Record>, key: Key, eventId: string, deliveries: seq<Record>)
    requires Sound(log) && key.external != "" && eventId != "" && Recalled(log, key).None?
    ensures var now := Log(Remembered(log, key, eventId), deliveries);
            |now| - |log| <= 2048 ==> Recalled(now, key) == Some(eventId)
  {
    var then' := Remembered(log, key, eventId);
    SoundStep(log, key, eventId);
    LogGrows(then', deliveries);
    var now := Log(then', deliveries);
    assert now[|log|] == then'[|log|];
    if |now| - |log| <= MAX_KEYS {
      var kept := Newest(now);
      LookupAt(kept, |log| - (|now| - |kept|));
    }
  }

  /** After 2048 newer keys it is forgotten, unless it has been remembered anew since. */
  lemma ThenForgotten(log: seq<Record>, key: Key, now: seq<Record>)
    requires Sound(now) && |now| - |log| > 2048
    requires forall i :: |log| < i < |now| ==> now[i].key != key
    ensures Recalled(now, key).None?
  {
    LookupMissing(Newest(now), key);
  }

  /** Remembering a key again returns the same event id and remembers nothing new. */
  lemma RememberingTwice(log: seq<Record>, key: Key, eventId: string, again: string)
    requires Sound(log) && key.external != "" && eventId != ""
    ensures var now := Remembered(log, key, eventId);
            Remembered(now, key, again) == now && Recalled(now, key).Some?
  {
    if Recalled(log, key).None? {
      FirstIdIsKept(log, key, eventId, []);
      assert Log(Remembered(log, key, eventId), []) == Remembered(log, key, eventId);
    }
  }

  // ---------------------------------------------------------------------------------------------
  // The cache
  // ---------------------------------------------------------------------------------------------

  class Cache {
    var eventIds: map<Key, string>
    var order: seq<Key>
    ghost var log: seq<Record>

    /** The dictionary and the order list hold the newest records of the log and nothing else. */
    ghost predicate Valid()
      reads this
    {
      Sound(log) && Represents(eventIds, order, Newest(log))
    }

    constructor ()
      ensures Valid() && log == []
    {
      eventIds, order, log := map[], [], [];
    }

    /** `get_recent_inbound_event_id`. */
    method GetRecentInboundEventId(session: string, source: Source, external: string) returns (id: string)
      requires Valid()
      ensures var found := Recalled(log, MakeKey(session, source, external));
              id == if Strip(external) == "" || found.None? then "" else found.value
    {
      if Strip(external) == "" { return ""; }
      var key := MakeKey(session, source, external);
      AgreesLookup(eventIds, Newest(log), key);
      return if key in eventIds then eventIds[key] else "";
    }

    /** `remember_inbound_event_id`. */
    method RememberInboundEventId(session: string, source: Source, external: string, eventId: string)
      returns (id: string)
      requires Valid()
      modifies this
      ensures Valid()
      ensures log == Remembered(old(log), MakeKey(session, source, external), Strip(eventId))
      ensures Strip(external) == "" || Strip(eventId) == "" ==> id == Strip(eventId)
      ensures Strip(external) != "" && Strip(eventId) != "" ==>
                Recalled(log, MakeKey(session, source, external)) == Some(id)
    {
      var key, eventId' := MakeKey(session, source, external), Strip(eventId);
      if key.external == "" || eventId' == "" { return eventId'; }
      id := RememberKey(key, eventId');
    }

    method RememberKey(key: Key, eventId: string) returns (id: string)
      requires Valid() && key.external != "" && eventId != ""
      modifies this
      ensures Valid()
      ensures log == Remembered(old(log), key, eventId)
      ensures Recalled(log, key) == Some(id)
    {
      if key in eventIds {
        KnownKey(eventIds, log, key);
        PresentId(eventIds, log, key);
        RememberedAlready(log, key, eventId);
        if eventIds[key] != "" { return eventIds[key]; }
      }
      RememberedAnew(eventIds, log, Record(key, eventId));
      Insert(key, eventId);
      return eventId;
    }

    method Insert(key: Key, eventId: string)
      requires Valid() && key !in eventIds && Sound(log + [Record(key, eventId)])
      modifies this
      ensures log == old(log) + [Record(key, eventId)] && Valid()
    {
      ghost var was, r := Newest(log), Record(key, eventId);
      RepresentsSnoc(eventIds, order, was, r);
      NewestOfAll(log, r);
      eventIds := eventIds[key := eventId];
      order := order + [key];
      log := log + [r];
      PruneInboundEventIds(was + [r]);
    }

    /** `_prune_inbound_event_ids`: the oldest keys leave both the list and the dictionary. */
    method PruneInboundEventIds(ghost records: seq<Record>)
      requires Represents(eventIds, order, records)
      modifies this`order, this`eventIds
      ensures Represents(eventIds, order, Newest(records))
    {
      var overflow := |order| - MAX_KEYS;
      if overflow <= 0 { return; }
      ghost var left := records;
      for n := 0 to overflow
        invariant |left| == |records| - n && left == records[n..]
        invariant |order| == |left| && Represents(eventIds, order, left)
      {
        DropOldest(left);
        left := left[1..];
      }
    }

    method DropOldest(ghost left: seq<Record>)
      requires |left| > 0 && Represents(eventIds, order, left)
      modifies this`order, this`eventIds
      ensures Represents(eventIds, order, left[1..])
    {
      RepresentsDrop(eventIds, order, left);
      var key := order[0];
      order := order[1..];
      eventIds := eventIds - {key};
    }
  }

  /** A dictionary holds exactly these records. */
  ghost predicate Agrees(ids: map<Key, string>, records: seq<Record>) {
    && (forall i :: 0 <= i < |records| ==> records[i].key in ids && ids[records[i].key] == records[i].eventId)
    && (forall key :: key in ids ==> exists i :: 0 <= i < |records| && records[i].key == key)
  }

  /** The dictionary and the order list hold exactly these records, in one-to-one correspondence. */
  ghost predicate Represents(ids: map<Key, string>, order: seq<Key>, records: seq<Record>) {
    KeysDiffer(records) && order == Keys(records) && Agrees(ids, records)
  }

  lemma AgreesLookup(ids: map<Key, string>, records: seq<Record>, key: Key)
    requires Agrees(ids, records) && KeysDiffer(records)
    ensures Lookup(records, key) == if key in ids then Some(ids[key]) else None
  {
    LookupMissing(records, key);
    if key in ids {
      var i :| 0 <= i < |records| && records[i].key == key;
      LookupAt(records, i);
    }
  }

  /** A key in the dictionary is a remembered one. */
  lemma KnownKey(ids: map<Key, string>, log: seq<Record>, key: Key)
    requires Sound(log) && Agrees(ids, Newest(log)) && key in ids
    ensures Recalled(log, key) == Some(ids[key])
  {
    AgreesLookup(ids, Newest(log), key);
  }

  lemma RememberedAlready(log: seq<Record>, key: Key, eventId: string)
    requires Recalled(log, key).Some?
    ensures Remembered(log, key, eventId) == log
  {
  }

  lemma PresentId(ids: map<Key, string>, log: seq<Record>, key: Key)
    requires IdsPresent(log) && Agrees(ids, Newest(log)) && key in ids
    ensures ids[key] != ""
  {
    var i :| 0 <= i < |Newest(log)| && Newest(log)[i].key == key;
    RecordPresent(log, i);
  }

  lemma RecordPresent(log: seq<Record>, i: nat)
    requires IdsPresent(log) && i < |Newest(log)|
    ensures Newest(log)[i].eventId != ""
  {
    assert Newest(log)[i] == log[|log| - |Newest(log)| + i];
  }

  /** Only a key that is not in the dictionary makes the log grow. */
  lemma RememberedAnew(ids: map<Key, string>, log: seq<Record>, r: Record)
    requires Sound(log) && Agrees(ids, Newest(log)) && r.key !in ids && r.key.external != "" && r.eventId != ""
    ensures Remembered(log, r.key, r.eventId) == log + [r] && Sound(log + [r])
    ensures Recalled(log + [r], r.key) == Some(r.eventId)
  {
    AgreesLookup(ids, Newest(log), r.key);
    SoundSnoc(log, r);
    RecalledNew(log, r.key, r.eventId);
  }

  lemma RecalledNew(log: seq<Record>, key: Key, eventId: string)
    requires Sound(log) && key.external != "" && eventId != "" && Recalled(log, key).None?
    ensures Recalled(Remembered(log, key, eventId), key) == Some(eventId)
  {
    FirstIdIsKept(log, key, eventId, []);
    assert Log(Remembered(log, key, eventId), []) == Remembered(log, key, eventId);
  }

  lemma AgreesSnoc(ids: map<Key, string>, ids': map<Key, string>, records: seq<Record>, r: Record)
    requires Agrees(ids, records) && r.key !in ids && ids' == ids[r.key := r.eventId]
    ensures Agrees(ids', records + [r])
  {
    var all := records + [r];
    forall key | key in ids' ensures exists i :: 0 <= i < |all| && all[i].key == key {
      if key == r.key {
        assert all[|records|].key == key;
      } else {
        var i :| 0 <= i < |records| && records[i].key == key;
        assert all[i].key == key;
      }
    }
  }

  lemma RepresentsSnoc(ids: map<Key, string>, order: seq<Key>, records: seq<Record>, r: Record)
    requires Represents(ids, order, records) && r.key !in ids
    ensures Represents(ids[r.key := r.eventId], order + [r.key], records + [r])
  {
    AgreesSnoc(ids, ids[r.key := r.eventId], records, r);
  }

  lemma RepresentsDrop(ids: map<Key, string>, order: seq<Key>, records: seq<Record>)
    requires Represents(ids, order, records) && |records| > 0
    ensures Represents(ids - {order[0]}, order[1..], records[1..])
  {
    AgreesDrop(ids, records);
    assert order[1..] == Keys(records[1..]);
  }

  lemma NewestOfAll(log: seq<Record>, r: Record)
    ensures Newest(Newest(log) + [r]) == Newest(log + [r])
  {
  }

  lemma AgreesDrop(ids: map<Key, string>, records: seq<Record>)
    requires |records| > 0 && KeysDiffer(records) && Agrees(ids, records)
    ensures Agrees(ids - {records[0].key}, records[1..])
  {
    var rest := records[1..];
    forall key | key in ids - {records[0].key} ensures exists i :: 0 <= i < |rest| && rest[i].key == key {
      var i :| 0 <= i < |records| && records[i].key == key;
      assert rest[i - 1].key == key;
    }
  }
}
