/** The consumer side of a test pass: the change events of one pass, read
    until the end-marker document shows up, and the verdict on each event.
    An update event that carries no `fullDocument` is suspicious; it is
    counted as an error when the record the store returns for its
    `documentKey` already holds the event's marker under the event's tag. */
module ChangeFeed {
  import opened Bson
  import Registry

  /** `event.Lookup("updateDescription", "updatedFields")` when it is a
      document: the fields the update set. A path through something that is
      not a document finds nothing. */
  function UpdatedFields(event: seq<Element>): Option<seq<Element>> {
    match Lookup(event, "updateDescription")
    case Some(Doc(desc)) =>
      (match Lookup(desc, "updatedFields")
       case Some(Doc(fields)) => Some(fields)
       case _ => None)
    case _ => None
  }

  /** `extractEventMarker`: the first updated field whose key starts with
      `"u"`. */
  function ExtractEventMarker(event: seq<Element>): Option<Element> {
    match UpdatedFields(event)
    case None => None
    case Some(fields) => FirstPrefixed(fields, "u")
  }

  /** Nothing when the event has no `updatedFields` document; otherwise the
      first updated field whose key starts with `"u"`, and nothing exactly
      when no key does. */
  lemma ExtractEventMarkerFirst(event: seq<Element>)
    ensures UpdatedFields(event).None? ==> ExtractEventMarker(event).None?
    ensures UpdatedFields(event).Some? ==>
      var fields, r := UpdatedFields(event).value, ExtractEventMarker(event);
      (r.None? <==> forall j :: 0 <= j < |fields| ==> !HasPrefix(fields[j].key, "u")) &&
      (r.Some? ==> exists i :: 0 <= i < |fields| && fields[i] == r.value && HasPrefix(r.value.key, "u") &&
                              forall j :: 0 <= j < i ==> !HasPrefix(fields[j].key, "u"))
  {
    if UpdatedFields(event).Some? {
      FirstPrefixedFirst(UpdatedFields(event).value, "u");
    }
  }

  /** For an event reporting the fields an update of the mutation phases
      set, the marker found is that update's tag with its marker value: the
      other fields it sets, `k` and `d`, do not carry the tag prefix. */
  lemma MarkerOfUpdate(event: seq<Element>, u: Registry.UpdateInput, uid: int, marker: int)
    requires UpdatedFields(event) == Some(Registry.SetFields(u, Registry.Tag(uid), marker))
    ensures ExtractEventMarker(event) == Some(Element(Registry.Tag(uid), Int64(marker)))
  {
    var fields := Registry.SetFields(u, Registry.Tag(uid), marker);
    Registry.TagInjective(uid, uid);
    ExtractEventMarkerFirst(event);
    assert "k"[..1][0] != "u"[0] && "d"[..1][0] != "u"[0];
    var i := |fields| - 1;
    assert fields[i] == Element(Registry.Tag(uid), Int64(marker));
    assert forall j :: 0 <= j < i ==> !HasPrefix(fields[j].key, "u");
  }

  /** What `Find(documentKey)` followed by `cur.Next` gives for an event: an
      error, an empty cursor, or the first matching record. */
  datatype FindResult = FindFailed | NoRecord | Record(doc: seq<Element>)

  /** One change event as the stream delivers it, with the result the
      store's `Find` gives when the consumer looks it up. */
  datatype Observed = Observed(event: seq<Element>, find: FindResult)

  /** The consumer's verdict on one event: nothing to report, an error to
      count, the end marker (the pass is over), or a fault — a Go panic,
      from `Document()`, `StringValue()` or `Int64()` applied to a value of
      another type. */
  datatype Verdict = Ignore | Flag | End | Fault

  /** The verdicts after which the consumer reads the next event. */
  const Continuing: set<Verdict> := {Ignore, Flag}

  predicate IsDoc(v: Option<Value>) {
    v.Some? && v.value.Doc?
  }

  /** Compare the record's field named by the event marker with the
      marker's value. A marker that is absent has the empty key and a value
      of no type. A field that is missing counts nothing; otherwise both
      values are read as int64, which panics for any other type. */
  function RecordVerdict(record: seq<Element>, marker: Option<Element>): Verdict {
    var key := if marker.Some? then marker.value.key else "";
    match Lookup(record, key)
    case None => Ignore
    case Some(v) =>
      if !v.Int64? || marker.None? || !marker.value.value.Int64? then Fault
      else if v.i == marker.value.value.i then Flag
      else Ignore
  }

  /** The body of the consumer loop for one event (`main.go`, in order):
      the `documentKey` document (a panic when it is not one), then the
      rest of the decision on that key. */
  function Classify(o: Observed, endMarker: nat): Verdict {
    match Lookup(o.event, "documentKey")
    case Some(Doc(key)) => KeyedVerdict(o, key, endMarker)
    case _ => Fault
  }

  /** The end marker check on the document key, then the operation type
      read as a string (a panic when it is not one). */
  function KeyedVerdict(o: Observed, key: seq<Element>, endMarker: nat): Verdict {
    if Lookup(key, "_id") == Some(ObjectId(endMarker)) then End
    else match Lookup(o.event, "operationType")
      case Some(Str(op)) => OperationVerdict(o, op)
      case _ => Fault
  }

  /** Only an update without an embedded `fullDocument` is looked up. */
  function OperationVerdict(o: Observed, op: string): Verdict {
    if op == "update" && !IsDoc(Lookup(o.event, "fullDocument")) then FoundVerdict(o) else Ignore
  }

  /** A failed `Find` or an empty cursor counts nothing; a record found is
      compared with the event marker. */
  function FoundVerdict(o: Observed): Verdict {
    match o.find
    case Record(rec) => RecordVerdict(rec, ExtractEventMarker(o.event))
    case _ => Ignore
  }

  /** An update of some document other than the end marker, without an
      embedded `fullDocument`, whose record was found and holds the event
      marker's field with the marker's int64 value. */
  ghost predicate CountedUpdate(o: Observed, endMarker: nat) {
    exists key, rec, e, x ::
      Lookup(o.event, "documentKey") == Some(Doc(key)) &&
      Lookup(key, "_id") != Some(ObjectId(endMarker)) &&
      Lookup(o.event, "operationType") == Some(Str("update")) &&
      !IsDoc(Lookup(o.event, "fullDocument")) &&
      o.find == Record(rec) &&
      ExtractEventMarker(o.event) == Some(e) && e.value == Int64(x) &&
      Lookup(rec, e.key) == Some(Int64(x))
  }

  /** An event is counted exactly when it is such an update. */
  lemma FlagExactly(o: Observed, endMarker: nat)
    ensures Classify(o, endMarker) == Flag <==> CountedUpdate(o, endMarker)
  {
    if Classify(o, endMarker) == Flag {
      FlagIsCounted(o, endMarker);
    }
    if CountedUpdate(o, endMarker) {
      CountedIsFlag(o, endMarker);
    }
  }

  lemma FlagIsCounted(o: Observed, endMarker: nat)
    requires Classify(o, endMarker) == Flag
    ensures CountedUpdate(o, endMarker)
  {
    var key := Lookup(o.event, "documentKey").value.elems;
    var rec := o.find.doc;
    var e := ExtractEventMarker(o.event).value;
    assert Lookup(o.event, "documentKey") == Some(Doc(key));
    assert Lookup(rec, e.key) == Some(Int64(e.value.i));
  }

  lemma CountedIsFlag(o: Observed, endMarker: nat)
    requires CountedUpdate(o, endMarker)
    ensures Classify(o, endMarker) == Flag
  {
    var key, rec, e, x :|
      Lookup(o.event, "documentKey") == Some(Doc(key)) &&
      Lookup(key, "_id") != Some(ObjectId(endMarker)) &&
      Lookup(o.event, "operationType") == Some(Str("update")) &&
      !IsDoc(Lookup(o.event, "fullDocument")) &&
      o.find == Record(rec) &&
      ExtractEventMarker(o.event) == Some(e) && e.value == Int64(x) &&
      Lookup(rec, e.key) == Some(Int64(x));
    RecordFlag(rec, e, x);
    FoundFlag(o, rec, e);
    assert OperationVerdict(o, "update") == Flag;
    assert KeyedVerdict(o, key, endMarker) == Flag;
  }

  lemma RecordFlag(rec: seq<Element>, e: Element, x: int)
    requires e.value == Int64(x) && Lookup(rec, e.key) == Some(Int64(x))
    ensures RecordVerdict(rec, Some(e)) == Flag
  {
  }

  lemma FoundFlag(o: Observed, rec: seq<Element>, e: Element)
    requires o.find == Record(rec) && ExtractEventMarker(o.event) == Some(e)
    requires RecordVerdict(rec, Some(e)) == Flag
    ensures FoundVerdict(o) == Flag
  {
  }

  /** A missing record, a record without the marker's field, or an event
      without a marker counts nothing. */
  lemma NothingToCompare(o: Observed, endMarker: nat)
    requires o.find.FindFailed? || o.find.NoRecord? ||
             (o.find.Record? && ExtractEventMarker(o.event).Some? &&
              Lookup(o.find.doc, ExtractEventMarker(o.event).value.key).None?) ||
             ExtractEventMarker(o.event).None?
    ensures Classify(o, endMarker) != Flag
  {
  }

  // ---------------------------------------------------------------------
  // One pass

  /** The verdicts on the events of a stream, in order. */
  function Verdicts(stream: seq<Observed>, endMarker: nat): (vs: seq<Verdict>)
    ensures |vs| == |stream|
  {
    if stream == [] then []
    else Verdicts(stream[..|stream| - 1], endMarker) + [Classify(stream[|stream| - 1], endMarker)]
  }

  lemma {:induction false} VerdictsAt(stream: seq<Observed>, endMarker: nat, j: nat)
    requires j < |stream|
    ensures Verdicts(stream, endMarker)[j] == Classify(stream[j], endMarker)
    decreases |stream|
  {
    if j < |stream| - 1 {
      VerdictsAt(stream[..|stream| - 1], endMarker, j);
    }
  }

  /** The verdicts on a prefix of the stream are the prefix of its
      verdicts, and the verdicts on two streams read one after the other
      are read one after the other. */
  lemma {:induction false} VerdictsAppend(stream: seq<Observed>, rest: seq<Observed>, endMarker: nat)
    ensures Verdicts(stream + rest, endMarker) == Verdicts(stream, endMarker) + Verdicts(rest, endMarker)
    decreases |rest|
  {
    if rest == [] {
      assert stream + rest == stream;
    } else {
      var init := rest[..|rest| - 1];
      VerdictsAppend(stream, init, endMarker);
      assert (stream + rest)[..|stream + rest| - 1] == stream + init;
    }
  }

  lemma VerdictsPrefix(stream: seq<Observed>, endMarker: nat, i: nat)
    requires i <= |stream|
    ensures Verdicts(stream, endMarker)[..i] == Verdicts(stream[..i], endMarker)
  {
    VerdictsAppend(stream[..i], stream[i..], endMarker);
    assert stream[..i] + stream[i..] == stream;
  }

  /** Index of the first verdict that ends the pass (the end marker or a
      fault), or the number of verdicts when none does. */
  function StopAt(vs: seq<Verdict>): (k: nat)
    ensures k <= |vs|
    ensures forall j :: 0 <= j < k ==> vs[j] in Continuing
    ensures k < |vs| ==> vs[k] !in Continuing
  {
    if vs == [] || vs[0] !in Continuing then 0
    else 1 + StopAt(vs[1..])
  }

  /** The number of `Flag` verdicts among `vs`. */
  function Flags(vs: seq<Verdict>): nat {
    if vs == [] then 0
    else Flags(vs[..|vs| - 1]) + (if vs[|vs| - 1] == Flag then 1 else 0)
  }

  /** How a pass ends: at the end marker, with the stream closed before it
      arrived (`stream.Next` returned false), or with a panic. */
  datatype PassEnd = EndMarker | Exhausted | Panicked

  function EndOf(vs: seq<Verdict>): PassEnd {
    var k := StopAt(vs);
    if k == |vs| then Exhausted
    else if vs[k] == End then EndMarker
    else Panicked
  }

  /** The consumer loop of a pass: events are read in order; the pass stops
      at the first event whose `documentKey._id` is the end marker; every
      flagged event adds one to `passErrors`, which is then added to
      `totalErrors`. A panic ends the pass (and the process) where it
      happens. */
  method DrainPass(stream: seq<Observed>, endMarker: nat, totalErrors: nat)
    returns (passErrors: nat, total: nat, end: PassEnd)
    ensures var vs := Verdicts(stream, endMarker);
      passErrors == Flags(vs[..StopAt(vs)]) && end == EndOf(vs)
    ensures total == totalErrors + passErrors
  {
    passErrors := 0;
    end := Exhausted;
    ghost var all := Verdicts(stream, endMarker);
    var i := 0;
    while i < |stream|
      invariant 0 <= i <= |stream|
      invariant forall j :: 0 <= j < i ==> all[j] in Continuing
      invariant passErrors == Flags(all[..i])
      invariant end == Exhausted
    {
      var verdict := Examine(stream, endMarker, i);
      if verdict == End {
        end := EndMarker;
        break;
      }
      if verdict == Fault {
        end := Panicked;
        break;
      }
      assert all[..i + 1][..i] == all[..i];
      if verdict == Flag {
        passErrors := passErrors + 1;
      }
      i := i + 1;
    }
    StopAtFirst(all, i);
    total := totalErrors + passErrors;
  }

  /** The loop body's decision on the `i`th event of the stream. */
  method Examine(stream: seq<Observed>, endMarker: nat, i: nat) returns (verdict: Verdict)
    requires i < |stream|
    ensures verdict == Verdicts(stream, endMarker)[i]
  {
    verdict := Classify(stream[i], endMarker);
    VerdictsAt(stream, endMarker, i);
  }

  /** The first index whose verdict ends the pass is `StopAt`. */
  lemma StopAtFirst(vs: seq<Verdict>, i: nat)
    requires i <= |vs|
    requires forall j :: 0 <= j < i ==> vs[j] in Continuing
    requires i < |vs| ==> vs[i] !in Continuing
    ensures StopAt(vs) == i
  {
  }

  /** Nothing after the event that ends the pass is examined or counted:
      appending events to a stream that already ends changes neither where
      the pass stops, nor how it ends, nor what it counts. */
  lemma LaterEventsIgnored(stream: seq<Observed>, rest: seq<Observed>, endMarker: nat)
    requires StopAt(Verdicts(stream, endMarker)) < |stream|
    ensures var vs := Verdicts(stream, endMarker);
      var ws := Verdicts(stream + rest, endMarker);
      StopAt(ws) == StopAt(vs) && EndOf(ws) == EndOf(vs) &&
      Flags(ws[..StopAt(ws)]) == Flags(vs[..StopAt(vs)])
  {
    var vs := Verdicts(stream, endMarker);
    VerdictsAppend(stream, rest, endMarker);
    var ws := vs + Verdicts(rest, endMarker);
    StopAtFirst(ws, StopAt(vs));
    assert ws[..StopAt(vs)] == vs[..StopAt(vs)];
  }

  /** Each event adds at most one error, and only a flagged one does. */
  lemma {:induction false} FlagsCountFlagged(vs: seq<Verdict>)
    ensures Flags(vs) <= |vs|
    ensures Flags(vs) == 0 <==> forall j :: 0 <= j < |vs| ==> vs[j] != Flag
    decreases |vs|
  {
    if vs != [] {
      var init := vs[..|vs| - 1];
      FlagsCountFlagged(init);
      if Flags(vs) == 0 {
        forall j | 0 <= j < |vs|
          ensures vs[j] != Flag
        {
          if j < |vs| - 1 {
            assert vs[j] == init[j];
          }
        }
      } else if vs[|vs| - 1] != Flag {
        var j :| 0 <= j < |init| && init[j] == Flag;
        assert vs[j] == init[j];
      }
    }
  }

  /** One more event that does not end the pass adds one error exactly
      when it is flagged. */
  lemma FlagsAppend(stream: seq<Observed>, o: Observed, endMarker: nat)
    ensures Flags(Verdicts(stream + [o], endMarker)) ==
            Flags(Verdicts(stream, endMarker)) + (if Classify(o, endMarker) == Flag then 1 else 0)
  {
    assert (stream + [o])[..|stream|] == stream;
    var vs := Verdicts(stream + [o], endMarker);
    assert vs[..|vs| - 1] == Verdicts(stream, endMarker);
  }
}
