/** The vCon conversation record: three scalar fields and four lists of entries, its
    dictionary projection and inverse, and the derived accessors over its lists. */
module Vcon {
  import opened JsonValues

  /** The exceptions the record's operations raise, by cause. */
  datatype Error =
    | NotAList                // a list field holds a truthy non-list: it has no `append` and yields no entries with `.get`
    | NotAnObject(index: nat) // the entry at `index` is not a JSON object, so `.get` raises AttributeError
    | BadOperand(index: nat)  // `+=` with the `duration` or `body` of the entry at `index` raises TypeError
    | KeyError(key: string)   // a subscript with a key the dictionary does not have
    | NotADict                // `from_dict` was given a value that is not a dictionary, so `.get` raises AttributeError

  datatype Result<T> = Ok(value: T) | Err(error: Error)

  datatype Outcome = Pass | Fail(error: Error)

  /*************************************************************************
   * The record as a value, and its dictionary form
   *************************************************************************/

  /** The seven fields of a vCon. The list fields hold whatever the constructor was
      given when that was truthy, so they are `Json` rather than lists. */
  datatype Record = Record(uuid: Json, createdAt: Json, updatedAt: Json,
                           dialog: Json, parties: Json, attachments: Json, analysis: Json)

  /** The keys of `to_dict()`, in the order the dictionary is built. */
  const FieldOrder: seq<string> :=
    ["uuid", "created_at", "updated_at", "dialog", "parties", "attachments", "analysis"]

  const FieldNames: set<string> := set k | k in FieldOrder

  /** `given or []`: what the constructor stores for a list argument. */
  function OrEmpty(given: Json): Json {
    if Truthy(given) then given else JArr([])
  }

  /** What a list field can hold after the constructor: a list, or a truthy value it was given. */
  predicate ListField(f: Json) {
    f.JArr? || Truthy(f)
  }

  predicate WellFormed(r: Record) {
    ListField(r.dialog) && ListField(r.parties) && ListField(r.attachments) && ListField(r.analysis)
  }

  /** `Vcon(dialog, parties, attachments, analysis, uuid, created_at, updated_at)` as a value. */
  function Init(dialog: Json, parties: Json, attachments: Json, analysis: Json,
                uuid: Json, createdAt: Json, updatedAt: Json): (r: Record)
    ensures WellFormed(r)
    ensures r.uuid == uuid && r.createdAt == createdAt && r.updatedAt == updatedAt
    ensures !Truthy(dialog) ==> r.dialog == JArr([])
    ensures !Truthy(parties) ==> r.parties == JArr([])
    ensures !Truthy(attachments) ==> r.attachments == JArr([])
    ensures !Truthy(analysis) ==> r.analysis == JArr([])
    ensures Truthy(dialog) ==> r.dialog == dialog
    ensures Truthy(parties) ==> r.parties == parties
    ensures Truthy(attachments) ==> r.attachments == attachments
    ensures Truthy(analysis) ==> r.analysis == analysis
  {
    Record(uuid, createdAt, updatedAt,
           OrEmpty(dialog), OrEmpty(parties), OrEmpty(attachments), OrEmpty(analysis))
  }

  /** `to_dict()`: the seven fields under their keys. */
  function ToDict(r: Record): (d: map<string, Json>)
    ensures d.Keys == FieldNames
  {
    map["uuid" := r.uuid, "created_at" := r.createdAt, "updated_at" := r.updatedAt,
        "dialog" := r.dialog, "parties" := r.parties,
        "attachments" := r.attachments, "analysis" := r.analysis]
  }

  /** `Vcon.from_dict(d)`: the constructor applied to `d.get(k)` for each of the seven keys. */
  function FromDict(d: map<string, Json>): (r: Record)
    ensures WellFormed(r)
  {
    Init(Get(d, "dialog"), Get(d, "parties"), Get(d, "attachments"), Get(d, "analysis"),
         Get(d, "uuid"), Get(d, "created_at"), Get(d, "updated_at"))
  }

  /** `Vcon.from_dict(v)` for any loaded JSON value `v`: only a dictionary has `.get`. */
  function FromValue(v: Json): (r: Result<Record>)
    ensures r.Ok? <==> v.JObj?
    ensures r.Err? ==> r.error == NotADict
    ensures r.Ok? ==> r.value == FromDict(v.fields) && WellFormed(r.value)
  {
    match v
    case JObj(d) => Ok(FromDict(d))
    case _ => Err(NotADict)
  }

  /** Rebuilding a record from its own dictionary gives the record back. */
  lemma FromDictToDict(r: Record)
    requires WellFormed(r)
    ensures FromDict(ToDict(r)) == r
  {
  }

  /** `from_dict` looks at the seven keys only: two dictionaries that agree on them give the same record. */
  lemma FromDictReadsOnlyFields(d: map<string, Json>, e: map<string, Json>)
    requires forall k :: k in FieldNames ==> Get(d, k) == Get(e, k)
    ensures FromDict(d) == FromDict(e)
  {
  }

  /** A missing scalar key reads as None and a missing list key as []. */
  lemma FromDictDefaults(d: map<string, Json>)
    ensures "uuid" !in d ==> FromDict(d).uuid == JNull
    ensures "created_at" !in d ==> FromDict(d).createdAt == JNull
    ensures "updated_at" !in d ==> FromDict(d).updatedAt == JNull
    ensures "dialog" !in d ==> FromDict(d).dialog == JArr([])
    ensures "parties" !in d ==> FromDict(d).parties == JArr([])
    ensures "attachments" !in d ==> FromDict(d).attachments == JArr([])
    ensures "analysis" !in d ==> FromDict(d).analysis == JArr([])
  {
  }

  /** Going through the dictionary twice changes nothing more than going through it once. */
  lemma FromDictIdempotent(d: map<string, Json>)
    ensures FromDict(ToDict(FromDict(d))) == FromDict(d)
  {
    FromDictToDict(FromDict(d));
  }

  /** `a == b` on two vCons compares their dictionaries, which is the same as comparing the fields. */
  function Eq(a: Record, b: Record): (equal: bool)
    ensures equal <==> a == b
  {
    var da, db := ToDict(a), ToDict(b);
    assert da == db ==>
      (da["uuid"] == db["uuid"] && da["created_at"] == db["created_at"]
       && da["updated_at"] == db["updated_at"] && da["dialog"] == db["dialog"]
       && da["parties"] == db["parties"] && da["attachments"] == db["attachments"]
       && da["analysis"] == db["analysis"]);
    da == db
  }

  /** `a != b`: the negation of `Eq`. */
  function Ne(a: Record, b: Record): (differ: bool)
    ensures differ <==> a != b
  {
    !Eq(a, b)
  }

  /** `v[key]`: a lookup in a fresh `to_dict()`. */
  function GetItem(r: Record, key: string): (v: Result<Json>)
    ensures v.Ok? <==> key in FieldNames
    ensures v.Err? ==> v.error == KeyError(key)
  {
    var d := ToDict(r);
    if key in d then Ok(d[key]) else Err(KeyError(key))
  }

  /** Each of the seven keys reads its own field. */
  lemma GetItemReadsField(r: Record)
    ensures GetItem(r, "uuid") == Ok(r.uuid)
    ensures GetItem(r, "created_at") == Ok(r.createdAt)
    ensures GetItem(r, "updated_at") == Ok(r.updatedAt)
    ensures GetItem(r, "dialog") == Ok(r.dialog)
    ensures GetItem(r, "parties") == Ok(r.parties)
    ensures GetItem(r, "attachments") == Ok(r.attachments)
    ensures GetItem(r, "analysis") == Ok(r.analysis)
  {
  }

  /** `iter(v)`: the keys of `to_dict()`, each once, in insertion order. */
  function Iter(r: Record): (keys: seq<string>)
    ensures forall k :: k in keys <==> k in ToDict(r)
    ensures forall i, j :: 0 <= i < j < |keys| ==> keys[i] != keys[j]
  {
    FieldOrder
  }

  /*************************************************************************
   * Walking a list of entries
   *************************************************************************/

  function Concat<T>(ss: seq<seq<T>>): seq<T>
    decreases |ss|
  {
    if ss == [] then [] else Concat(ss[..|ss| - 1]) + ss[|ss| - 1]
  }

  function Sum(ns: seq<int>): int
    decreases |ns|
  {
    if ns == [] then 0 else Sum(ns[..|ns| - 1]) + ns[|ns| - 1]
  }

  predicate IsObject(e: Json) {
    e.JObj?
  }

  /** Every entry of `xs` passes `ok`, so a walk over `xs` raises nothing. */
  ghost predicate AllOk(xs: seq<Json>, ok: Json -> bool) {
    forall k :: 0 <= k < |xs| ==> ok(xs[k])
  }

  /** A walk over `xs` raises `e` at its first entry that fails `ok`: AttributeError when that
      entry is not an object, TypeError otherwise. */
  ghost predicate FailsFirstAt(xs: seq<Json>, e: Error, ok: Json -> bool) {
    && (e.NotAnObject? || e.BadOperand?)
    && e.index < |xs|
    && !ok(xs[e.index])
    && (forall k :: 0 <= k < e.index ==> ok(xs[k]))
    && (e.NotAnObject? <==> !xs[e.index].JObj?)
  }

  /** A walk fails at one place only. */
  lemma FailsFirstAtUnique(xs: seq<Json>, e1: Error, e2: Error, ok: Json -> bool)
    requires FailsFirstAt(xs, e1, ok) && FailsFirstAt(xs, e2, ok)
    ensures e1 == e2
  {
    assert e1.index == e2.index;
  }

  /*************************************************************************
   * get_party_names
   *************************************************************************/

  /** What one party contributes: its first truthy `name`, `email` or `tel`, or nothing. */
  function PartyName(p: Json): seq<Json> {
    match p
    case JObj(m) =>
      if Truthy(Get(m, "name")) then [Get(m, "name")]
      else if Truthy(Get(m, "email")) then [Get(m, "email")]
      else if Truthy(Get(m, "tel")) then [Get(m, "tel")]
      else []
    case _ => []
  }

  /** `get_party_names()` over the list `parties`. */
  function NamesIn(parties: seq<Json>): (r: Result<seq<Json>>)
    decreases |parties|
    ensures r.Ok? <==> AllOk(parties, IsObject)
    ensures r.Err? ==> FailsFirstAt(parties, r.error, IsObject)
    ensures r.Ok? ==> |r.value| <= |parties|
    ensures r.Ok? ==> forall k :: 0 <= k < |r.value| ==> Truthy(r.value[k])
  {
    if parties == [] then Ok([])
    else
      var n := |parties| - 1;
      match NamesIn(parties[..n])
      case Err(e) => Err(e)
      case Ok(names) =>
        if parties[n].JObj? then Ok(names + PartyName(parties[n])) else Err(NotAnObject(n))
  }

  /** The names are, in party order, each party's own contribution. */
  lemma {:induction false} PartyNamesByParty(parties: seq<Json>)
    requires AllOk(parties, IsObject)
    ensures NamesIn(parties) == Ok(Concat(seq(|parties|, i requires 0 <= i < |parties| => PartyName(parties[i]))))
  {
    if parties != [] {
      var n := |parties| - 1;
      PartyNamesByParty(parties[..n]);
      assert seq(n, i requires 0 <= i < n => PartyName(parties[..n][i]))
          == seq(|parties|, i requires 0 <= i < |parties| => PartyName(parties[i]))[..n];
    }
  }

  /** There is one name per party exactly when every party has a truthy name, email or tel. */
  lemma {:induction false} PartyNamesOnePerParty(parties: seq<Json>)
    requires AllOk(parties, IsObject)
    ensures |NamesIn(parties).value| == |parties| <==> forall k :: 0 <= k < |parties| ==> PartyName(parties[k]) != []
  {
    if parties != [] {
      var n := |parties| - 1;
      PartyNamesOnePerParty(parties[..n]);
      assert forall k :: 0 <= k < n ==> parties[..n][k] == parties[k];
    }
  }

  /*************************************************************************
   * get_dialog_urls
   *************************************************************************/

  /** What one dialog entry contributes: its `url` when truthy, or nothing. */
  function DialogUrl(d: Json): seq<Json> {
    match d
    case JObj(m) => if Truthy(Get(m, "url")) then [Get(m, "url")] else []
    case _ => []
  }

  /** `get_dialog_urls()` over the list `dialog`. */
  function UrlsIn(dialog: seq<Json>): (r: Result<seq<Json>>)
    decreases |dialog|
    ensures r.Ok? <==> AllOk(dialog, IsObject)
    ensures r.Err? ==> FailsFirstAt(dialog, r.error, IsObject)
    ensures r.Ok? ==> |r.value| <= |dialog|
    ensures r.Ok? ==> forall k :: 0 <= k < |r.value| ==> Truthy(r.value[k])
  {
    if dialog == [] then Ok([])
    else
      var n := |dialog| - 1;
      match UrlsIn(dialog[..n])
      case Err(e) => Err(e)
      case Ok(urls) =>
        if dialog[n].JObj? then Ok(urls + DialogUrl(dialog[n])) else Err(NotAnObject(n))
  }

  /** The urls are, in dialog order, the truthy `url` of each entry that has one. */
  lemma {:induction false} DialogUrlsByEntry(dialog: seq<Json>)
    requires AllOk(dialog, IsObject)
    ensures UrlsIn(dialog) == Ok(Concat(seq(|dialog|, i requires 0 <= i < |dialog| => DialogUrl(dialog[i]))))
  {
    if dialog != [] {
      var n := |dialog| - 1;
      DialogUrlsByEntry(dialog[..n]);
      assert seq(n, i requires 0 <= i < n => DialogUrl(dialog[..n][i]))
          == seq(|dialog|, i requires 0 <= i < |dialog| => DialogUrl(dialog[i]))[..n];
    }
  }

  /*************************************************************************
   * summary
   *************************************************************************/

  predicate IsSummary(a: Json) {
    a.JObj? && Get(a.fields, "type") == JStr("summary")
  }

  /** An entry the search looks at and moves past. */
  predicate PassedOver(a: Json) {
    a.JObj? && !IsSummary(a)
  }

  /** `summary()` resumed at position `i` of the list `analysis`. */
  function SummaryFrom(analysis: seq<Json>, i: nat): (r: Result<Json>)
    requires i <= |analysis|
    ensures r.Err? ==> r.error.NotAnObject? && i <= r.error.index < |analysis|
                       && !analysis[r.error.index].JObj?
                       && forall k :: i <= k < r.error.index ==> PassedOver(analysis[k])
    decreases |analysis| - i
  {
    if i == |analysis| then Ok(JNull)
    else if !analysis[i].JObj? then Err(NotAnObject(i))
    else if IsSummary(analysis[i]) then Ok(Get(analysis[i].fields, "body"))
    else SummaryFrom(analysis, i + 1)
  }

  /** The search moves past entries that are objects of another type without changing its result. */
  lemma {:induction false} SummarySkips(analysis: seq<Json>, i: nat, j: nat)
    requires i <= j <= |analysis|
    requires forall k :: i <= k < j ==> PassedOver(analysis[k])
    ensures SummaryFrom(analysis, i) == SummaryFrom(analysis, j)
    decreases j - i
  {
    if i < j {
      SummarySkips(analysis, i + 1, j);
    }
  }

  /** The first summary entry decides the result, whatever comes after it; its body may be None. */
  lemma SummaryFirstMatch(analysis: seq<Json>, j: nat)
    requires j < |analysis| && IsSummary(analysis[j])
    requires forall k :: 0 <= k < j ==> PassedOver(analysis[k])
    ensures SummaryFrom(analysis, 0) == Ok(Get(analysis[j].fields, "body"))
  {
    SummarySkips(analysis, 0, j);
  }

  /** Without a summary entry the result is None. */
  lemma SummaryNoMatch(analysis: seq<Json>)
    requires forall k :: 0 <= k < |analysis| ==> PassedOver(analysis[k])
    ensures SummaryFrom(analysis, 0) == Ok(JNull)
  {
    SummarySkips(analysis, 0, |analysis|);
  }

  /** A non-object met before any summary entry raises. */
  lemma SummaryFailsBeforeMatch(analysis: seq<Json>, j: nat)
    requires j < |analysis| && !analysis[j].JObj?
    requires forall k :: 0 <= k < j ==> PassedOver(analysis[k])
    ensures SummaryFrom(analysis, 0) == Err(NotAnObject(j))
  {
    SummarySkips(analysis, 0, j);
  }

  /*************************************************************************
   * duration
   *************************************************************************/

  /** An entry `0 + ... + entry.get("duration")` can add: an object whose duration is a number. */
  predicate HasDuration(d: Json) {
    d.JObj? && AsNumber(Get(d.fields, "duration")).Some?
  }

  function Seconds(d: Json): int {
    if HasDuration(d) then AsNumber(Get(d.fields, "duration")).value else 0
  }

  /** `duration()` over the list `dialog`. */
  function DurationIn(dialog: seq<Json>): (r: Result<int>)
    decreases |dialog|
    ensures r.Ok? <==> AllOk(dialog, HasDuration)
    ensures r.Err? ==> FailsFirstAt(dialog, r.error, HasDuration)
  {
    if dialog == [] then Ok(0)
    else
      var n := |dialog| - 1;
      match DurationIn(dialog[..n])
      case Err(e) => Err(e)
      case Ok(total) =>
        if !dialog[n].JObj? then Err(NotAnObject(n))
        else match AsNumber(Get(dialog[n].fields, "duration"))
          case None => Err(BadOperand(n))
          case Some(seconds) => Ok(total + seconds)
  }

  /** The duration is the sum of the entries' durations, 0 for an empty dialog. */
  lemma {:induction false} DurationIsSum(dialog: seq<Json>)
    requires AllOk(dialog, HasDuration)
    ensures DurationIn(dialog) == Ok(Sum(seq(|dialog|, i requires 0 <= i < |dialog| => Seconds(dialog[i]))))
  {
    if dialog != [] {
      var n := |dialog| - 1;
      DurationIsSum(dialog[..n]);
      assert seq(n, i requires 0 <= i < n => Seconds(dialog[..n][i]))
          == seq(|dialog|, i requires 0 <= i < |dialog| => Seconds(dialog[i]))[..n];
    }
  }

  /*************************************************************************
   * get_transcript
   *************************************************************************/

  predicate IsTranscript(d: Json) {
    d.JObj? && Get(d.fields, "type") == JStr("transcript")
  }

  /** An entry the transcript loop gets past: an object whose body is a string when it is a transcript. */
  predicate TranscriptReadable(d: Json) {
    d.JObj? && (IsTranscript(d) ==> Get(d.fields, "body").JStr?)
  }

  /** What one entry contributes to the transcript. */
  function TranscriptPiece(d: Json): string {
    if IsTranscript(d) && Get(d.fields, "body").JStr? then Get(d.fields, "body").s else ""
  }

  /** `get_transcript()` over the list `dialog`. */
  function TranscriptIn(dialog: seq<Json>): (r: Result<string>)
    decreases |dialog|
    ensures r.Ok? <==> AllOk(dialog, TranscriptReadable)
    ensures r.Err? ==> FailsFirstAt(dialog, r.error, TranscriptReadable)
  {
    if dialog == [] then Ok("")
    else
      var n := |dialog| - 1;
      match TranscriptIn(dialog[..n])
      case Err(e) => Err(e)
      case Ok(text) =>
        if !dialog[n].JObj? then Err(NotAnObject(n))
        else if IsTranscript(dialog[n]) then
          match Get(dialog[n].fields, "body")
          case JStr(body) => Ok(text + body)
          case _ => Err(BadOperand(n))
        else Ok(text)
  }

  /** The transcript is the transcript bodies joined in dialog order with no separator. */
  lemma {:induction false} TranscriptIsConcat(dialog: seq<Json>)
    requires AllOk(dialog, TranscriptReadable)
    ensures TranscriptIn(dialog) == Ok(Concat(seq(|dialog|, i requires 0 <= i < |dialog| => TranscriptPiece(dialog[i]))))
  {
    if dialog != [] {
      var n := |dialog| - 1;
      TranscriptIsConcat(dialog[..n]);
      assert seq(n, i requires 0 <= i < n => TranscriptPiece(dialog[..n][i]))
          == seq(|dialog|, i requires 0 <= i < |dialog| => TranscriptPiece(dialog[i]))[..n];
      var text := TranscriptIn(dialog[..n]).value;
      assert TranscriptReadable(dialog[n]);
      if !IsTranscript(dialog[n]) {
        assert text + TranscriptPiece(dialog[n]) == text;
      }
    }
  }

  /** Without transcript entries the transcript is "", whatever the other entries' bodies are. */
  lemma {:induction false} TranscriptWithoutTranscripts(dialog: seq<Json>)
    requires forall k :: 0 <= k < |dialog| ==> dialog[k].JObj? && !IsTranscript(dialog[k])
    ensures TranscriptIn(dialog) == Ok("")
  {
    if dialog != [] {
      TranscriptWithoutTranscripts(dialog[..|dialog| - 1]);
    }
  }

  /*************************************************************************
   * Worked examples
   *************************************************************************/

  /** Name before email before tel; an empty name falls through; a party with none is skipped. */
  lemma PartyNamesExample()
    ensures NamesIn([JObj(map["name" := JStr("A")]), JObj(map["email" := JStr("b@x.com")]),
                     JObj(map["name" := JStr(""), "tel" := JStr("123")]), JObj(map[])])
         == Ok([JStr("A"), JStr("b@x.com"), JStr("123")])
  {
    var p0, p1 := JObj(map["name" := JStr("A")]), JObj(map["email" := JStr("b@x.com")]);
    var p2, p3 := JObj(map["name" := JStr(""), "tel" := JStr("123")]), JObj(map[]);
    assert PartyName(p0) == [JStr("A")] by { assert Get(p0.fields, "name") == JStr("A"); }
    assert PartyName(p1) == [JStr("b@x.com")] by {
      assert Get(p1.fields, "name") == JNull && Get(p1.fields, "email") == JStr("b@x.com");
    }
    assert PartyName(p2) == [JStr("123")] by {
      assert Get(p2.fields, "name") == JStr("") && Get(p2.fields, "email") == JNull;
      assert Get(p2.fields, "tel") == JStr("123");
    }
    assert PartyName(p3) == [];
    var none: seq<Json> := [];
    assert [p0, p1, p2, p3][..3] == [p0, p1, p2] && [p0, p1, p2][..2] == [p0, p1];
    assert [p0, p1][..1] == [p0] && [p0][..0] == [];
    assert NamesIn([p0]) == Ok(none + PartyName(p0));
    assert none + PartyName(p0) == [JStr("A")];
    assert NamesIn([p0, p1]) == Ok([JStr("A")] + PartyName(p1));
    assert [JStr("A")] + PartyName(p1) == [JStr("A"), JStr("b@x.com")];
    assert NamesIn([p0, p1, p2]) == Ok([JStr("A"), JStr("b@x.com")] + PartyName(p2));
    assert [JStr("A"), JStr("b@x.com")] + PartyName(p2) == [JStr("A"), JStr("b@x.com"), JStr("123")];
    assert NamesIn([p0, p1, p2, p3]) == Ok([JStr("A"), JStr("b@x.com"), JStr("123")] + PartyName(p3));
    assert [JStr("A"), JStr("b@x.com"), JStr("123")] + PartyName(p3) == [JStr("A"), JStr("b@x.com"), JStr("123")];
  }

  /** Entries without a url contribute nothing. */
  lemma DialogUrlsExample()
    ensures UrlsIn([JObj(map["url" := JStr("u1")]), JObj(map[]), JObj(map["url" := JStr("u2")])])
         == Ok([JStr("u1"), JStr("u2")])
  {
    var d0, d1, d2 := JObj(map["url" := JStr("u1")]), JObj(map[]), JObj(map["url" := JStr("u2")]);
    assert DialogUrl(d0) == [JStr("u1")] by { assert Get(d0.fields, "url") == JStr("u1"); }
    assert DialogUrl(d1) == [];
    assert DialogUrl(d2) == [JStr("u2")] by { assert Get(d2.fields, "url") == JStr("u2"); }
    var none: seq<Json> := [];
    assert [d0, d1, d2][..2] == [d0, d1] && [d0, d1][..1] == [d0] && [d0][..0] == [];
    assert UrlsIn([d0]) == Ok(none + DialogUrl(d0));
    assert none + DialogUrl(d0) == [JStr("u1")];
    assert UrlsIn([d0, d1]) == Ok([JStr("u1")] + DialogUrl(d1));
    assert [JStr("u1")] + DialogUrl(d1) == [JStr("u1")];
    assert UrlsIn([d0, d1, d2]) == Ok([JStr("u1")] + DialogUrl(d2));
    assert [JStr("u1")] + DialogUrl(d2) == [JStr("u1"), JStr("u2")];
  }

  /** The first summary wins. */
  lemma SummaryExample()
    ensures SummaryFrom([JObj(map["type" := JStr("note"), "body" := JStr("x")]),
                         JObj(map["type" := JStr("summary"), "body" := JStr("S1")]),
                         JObj(map["type" := JStr("summary"), "body" := JStr("S2")])], 0)
         == Ok(JStr("S1"))
  {
  }

  /** Durations add up; an entry without one raises. */
  lemma DurationExample()
    ensures DurationIn([JObj(map["duration" := JNum(10)]), JObj(map["duration" := JNum(5)])]) == Ok(15)
    ensures DurationIn([JObj(map["url" := JStr("x")])]) == Err(BadOperand(0))
  {
  }

  /** Transcript bodies run together with no separator. */
  lemma TranscriptExample()
    ensures TranscriptIn([JObj(map["type" := JStr("transcript"), "body" := JStr("Hello ")]),
                          JObj(map["type" := JStr("transcript"), "body" := JStr("world")])])
         == Ok("Hello world")
  {
    var d0 := JObj(map["type" := JStr("transcript"), "body" := JStr("Hello ")]);
    var d1 := JObj(map["type" := JStr("transcript"), "body" := JStr("world")]);
    assert IsTranscript(d0) && Get(d0.fields, "body") == JStr("Hello ");
    assert IsTranscript(d1) && Get(d1.fields, "body") == JStr("world");
    assert [d0, d1][..1] == [d0] && [d0][..0] == [];
    assert TranscriptIn([d0]) == Ok("" + "Hello ");
    assert "" + "Hello " == "Hello ";
    assert "Hello " + "world" == "Hello world";
  }

  /*************************************************************************
   * The record object
   *************************************************************************/

  /** A vCon object: the fields are updated in place by the `add_*` methods. */
  class Vcon {
    var dialog: Json
    var parties: Json
    var attachments: Json
    var analysis: Json
    var uuid: Json
    var createdAt: Json
    var updatedAt: Json

    function Value(): Record
      reads this
    {
      Record(uuid, createdAt, updatedAt, dialog, parties, attachments, analysis)
    }

    predicate Valid()
      reads this
    {
      WellFormed(Value())
    }

    /** `Vcon(dialog, parties, attachments, analysis, uuid, created_at, updated_at)`; an omitted argument is `JNull`. */
    constructor (dialog: Json, parties: Json, attachments: Json, analysis: Json,
                 uuid: Json, createdAt: Json, updatedAt: Json)
      ensures Valid()
      ensures Value() == Init(dialog, parties, attachments, analysis, uuid, createdAt, updatedAt)
    {
      this.dialog := OrEmpty(dialog);
      this.parties := OrEmpty(parties);
      this.attachments := OrEmpty(attachments);
      this.analysis := OrEmpty(analysis);
      this.uuid := uuid;
      this.createdAt := createdAt;
      this.updatedAt := updatedAt;
    }

    method AddDialog(entry: Json) returns (outcome: Outcome)
      requires Valid()
      modifies this
      ensures Valid()
      ensures old(dialog).JArr? ==>
        outcome == Pass && Value() == old(Value()).(dialog := JArr(old(dialog).items + [entry]))
      ensures !old(dialog).JArr? ==> outcome == Fail(NotAList) && Value() == old(Value())
    {
      if dialog.JArr? {
        dialog := JArr(dialog.items + [entry]);
        outcome := Pass;
      } else {
        outcome := Fail(NotAList);
      }
    }

    method AddParty(party: Json) returns (outcome: Outcome)
      requires Valid()
      modifies this
      ensures Valid()
      ensures old(parties).JArr? ==>
        outcome == Pass && Value() == old(Value()).(parties := JArr(old(parties).items + [party]))
      ensures !old(parties).JArr? ==> outcome == Fail(NotAList) && Value() == old(Value())
    {
      if parties.JArr? {
        parties := JArr(parties.items + [party]);
        outcome := Pass;
      } else {
        outcome := Fail(NotAList);
      }
    }

    method AddAttachment(attachment: Json) returns (outcome: Outcome)
      requires Valid()
      modifies this
      ensures Valid()
      ensures old(attachments).JArr? ==>
        outcome == Pass && Value() == old(Value()).(attachments := JArr(old(attachments).items + [attachment]))
      ensures !old(attachments).JArr? ==> outcome == Fail(NotAList) && Value() == old(Value())
    {
      if attachments.JArr? {
        attachments := JArr(attachments.items + [attachment]);
        outcome := Pass;
      } else {
        outcome := Fail(NotAList);
      }
    }

    method AddAnalysis(entry: Json) returns (outcome: Outcome)
      requires Valid()
      modifies this
      ensures Valid()
      ensures old(analysis).JArr? ==>
        outcome == Pass && Value() == old(Value()).(analysis := JArr(old(analysis).items + [entry]))
      ensures !old(analysis).JArr? ==> outcome == Fail(NotAList) && Value() == old(Value())
    {
      if analysis.JArr? {
        analysis := JArr(analysis.items + [entry]);
        outcome := Pass;
      } else {
        outcome := Fail(NotAList);
      }
    }

    method GetPartyNames() returns (r: Result<seq<Json>>)
      requires Valid()
      ensures r == if parties.JArr? then NamesIn(parties.items) else Err(NotAList)
    {
      if !parties.JArr? {
        return Err(NotAList);
      }
      var xs := parties.items;
      var names: seq<Json> := [];
      var i := 0;
      while i < |xs|
        invariant 0 <= i <= |xs|
        invariant NamesIn(xs[..i]) == Ok(names)
      {
        var party := xs[i];
        assert xs[..i + 1][..i] == xs[..i];
        if !party.JObj? {
          assert FailsFirstAt(xs, NotAnObject(i), IsObject);
          FailsFirstAtUnique(xs, NamesIn(xs).error, NotAnObject(i), IsObject);
          return Err(NotAnObject(i));
        }
        var m := party.fields;
        ghost var before := names;
        if Truthy(Get(m, "name")) {
          names := names + [Get(m, "name")];
        } else if Truthy(Get(m, "email")) {
          names := names + [Get(m, "email")];
        } else if Truthy(Get(m, "tel")) {
          names := names + [Get(m, "tel")];
        }
        assert names == before + PartyName(party);
        i := i + 1;
      }
      assert xs[..i] == xs;
      return Ok(names);
    }

    method GetDialogUrls() returns (r: Result<seq<Json>>)
      requires Valid()
      ensures r == if dialog.JArr? then UrlsIn(dialog.items) else Err(NotAList)
    {
      if !dialog.JArr? {
        return Err(NotAList);
      }
      var xs := dialog.items;
      var urls: seq<Json> := [];
      var i := 0;
      while i < |xs|
        invariant 0 <= i <= |xs|
        invariant UrlsIn(xs[..i]) == Ok(urls)
      {
        var entry := xs[i];
        assert xs[..i + 1][..i] == xs[..i];
        if !entry.JObj? {
          assert FailsFirstAt(xs, NotAnObject(i), IsObject);
          FailsFirstAtUnique(xs, UrlsIn(xs).error, NotAnObject(i), IsObject);
          return Err(NotAnObject(i));
        }
        ghost var before := urls;
        if Truthy(Get(entry.fields, "url")) {
          urls := urls + [Get(entry.fields, "url")];
        }
        assert urls == before + DialogUrl(entry);
        i := i + 1;
      }
      assert xs[..i] == xs;
      return Ok(urls);
    }

    method Summary() returns (r: Result<Json>)
      requires Valid()
      ensures r == if analysis.JArr? then SummaryFrom(analysis.items, 0) else Err(NotAList)
    {
      if !analysis.JArr? {
        return Err(NotAList);
      }
      var xs := analysis.items;
      var i := 0;
      while i < |xs|
        invariant 0 <= i <= |xs|
        invariant SummaryFrom(xs, i) == SummaryFrom(xs, 0)
      {
        var entry := xs[i];
        if !entry.JObj? {
          return Err(NotAnObject(i));
        }
        if Get(entry.fields, "type") == JStr("summary") {
          return Ok(Get(entry.fields, "body"));
        }
        i := i + 1;
      }
      return Ok(JNull);
    }

    method Duration() returns (r: Result<int>)
      requires Valid()
      ensures r == if dialog.JArr? then DurationIn(dialog.items) else Err(NotAList)
    {
      if !dialog.JArr? {
        return Err(NotAList);
      }
      var xs := dialog.items;
      var total := 0;
      var i := 0;
      while i < |xs|
        invariant 0 <= i <= |xs|
        invariant DurationIn(xs[..i]) == Ok(total)
      {
        var entry := xs[i];
        assert xs[..i + 1][..i] == xs[..i];
        if !entry.JObj? {
          assert FailsFirstAt(xs, NotAnObject(i), HasDuration);
          FailsFirstAtUnique(xs, DurationIn(xs).error, NotAnObject(i), HasDuration);
          return Err(NotAnObject(i));
        }
        match AsNumber(Get(entry.fields, "duration"))
        case None =>
          assert FailsFirstAt(xs, BadOperand(i), HasDuration);
          FailsFirstAtUnique(xs, DurationIn(xs).error, BadOperand(i), HasDuration);
          return Err(BadOperand(i));
        case Some(seconds) => {
          total := total + seconds;
          i := i + 1;
        }
      }
      assert xs[..i] == xs;
      return Ok(total);
    }

    method GetTranscript() returns (r: Result<string>)
      requires Valid()
      ensures r == if dialog.JArr? then TranscriptIn(dialog.items) else Err(NotAList)
    {
      if !dialog.JArr? {
        return Err(NotAList);
      }
      var xs := dialog.items;
      var transcript := "";
      var i := 0;
      while i < |xs|
        invariant 0 <= i <= |xs|
        invariant TranscriptIn(xs[..i]) == Ok(transcript)
      {
        var entry := xs[i];
        assert xs[..i + 1][..i] == xs[..i];
        if !entry.JObj? {
          assert FailsFirstAt(xs, NotAnObject(i), TranscriptReadable);
          FailsFirstAtUnique(xs, TranscriptIn(xs).error, NotAnObject(i), TranscriptReadable);
          return Err(NotAnObject(i));
        }
        if Get(entry.fields, "type") == JStr("transcript") {
          var body := Get(entry.fields, "body");
          if !body.JStr? {
            assert FailsFirstAt(xs, BadOperand(i), TranscriptReadable);
            FailsFirstAtUnique(xs, TranscriptIn(xs).error, BadOperand(i), TranscriptReadable);
            return Err(BadOperand(i));
          }
          transcript := transcript + body.s;
        }
        i := i + 1;
      }
      assert xs[..i] == xs;
      return Ok(transcript);
    }

    /** `v[key] = value` writes into a fresh `to_dict()` and leaves the object as it was. */
    method SetItem(key: string, value: Json)
      ensures unchanged(this)
    {
      var copy := ToDict(Value())[key := value];
    }

    /** `del v[key]` deletes from a fresh `to_dict()`: KeyError for a key outside the seven, and
        otherwise no effect (the method has no `modifies` clause). */
    method DelItem(key: string) returns (outcome: Outcome)
      ensures outcome.Pass? <==> key in FieldNames
      ensures outcome.Fail? ==> outcome.error == KeyError(key)
    {
      var copy := ToDict(Value());
      if key !in copy {
        return Fail(KeyError(key));
      }
      copy := copy - {key};
      return Pass;
    }
  }
}
