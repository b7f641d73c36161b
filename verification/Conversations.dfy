/** The assistant's conversation documents: optimistic concurrency, replays, and what load checks. */
module Conversations {
  import opened Prelude
  import opened Text

  const MAX_TEXT := 8000
  const MAX_MESSAGES := 200
  const MAX_CONVERSATIONS := 100

  datatype ConversationError = LimitReached | InvalidId | Unavailable | Integrity | InvalidMessage | Missing | ReplayMismatch | Changed | MessageLimit

  datatype Message =
    | User(text: string, messageId: string, fingerprint: string, at: int)
    | Assistant(text: string, status: string, at: int)

  datatype Document = Document(binding: string, id: string, version: int, created: int, updated: int, messages: seq<Message>)

  /** One account's directory: its binding and its documents by file name. */
  datatype Home = Home(binding: string, documents: map<string, Document>)

  /** The guidance answer, and the digest of a message's text and locale. */
  datatype Env = Env(guide: (string, string) -> (string, string), digest: (string, string) -> string)

  ghost predicate Brief(env: Env) {
    forall text: string, locale: string :: |env.guide(text, locale).0| <= MAX_TEXT
  }

  /** What `load` checks, the size of the file apart. */
  predicate Loads(binding: string, id: string, d: Document) {
    && d.binding == binding && d.id == id && |d.messages| <= MAX_MESSAGES && d.version * 2 == |d.messages|
    && forall i :: 0 <= i < |d.messages| ==> d.messages[i].User? == (i % 2 == 0) && |d.messages[i].text| <= MAX_TEXT
  }

  predicate PlausibleId(id: string) {
    |id| == 32 && forall i :: 0 <= i < |id| ==> id[i] in "0123456789abcdef"
  }

  /** `next(m for m in messages if m.get("message_id") == id)`. */
  function FindReplay(messages: seq<Message>, id: string): (r: Option<Message>)
    ensures r.Some? ==> r.value in messages && r.value.User? && r.value.messageId == id
    ensures r.None? ==> forall m :: m in messages && m.User? ==> m.messageId != id
  {
    if messages == [] then None
    else if messages[0].User? && messages[0].messageId == id then Some(messages[0])
    else FindReplay(messages[1..], id)
  }

  datatype Send = Send(id: string, text: string, locale: string, messageId: string, version: Option<int>)

  /** `create`. */
  function Create(h: Home, newId: string, now: int): (Home, Result<Document, ConversationError>) {
    if |h.documents| >= MAX_CONVERSATIONS then (h, Err(LimitReached))
    else
      var d := Document(h.binding, newId, 0, now, now, []);
      (h.(documents := h.documents[newId := d]), Ok(d))
  }

  /** The document a request names, once it loads. */
  function Open(h: Home, idText: string): Result<Document, ConversationError> {
    var id := Strip(idText);
    if id == "" then Err(Missing)
    else if !PlausibleId(id) then Err(InvalidId)
    else if id !in h.documents then Err(Unavailable)
    else if !Loads(h.binding, id, h.documents[id]) then Err(Integrity)
    else Ok(h.documents[id])
  }

  function Delete(h: Home, idText: string): (Home, Option<ConversationError>) {
    var d := Open(h, idText);
    if d.Err? then (h, Some(d.error)) else (h.(documents := h.documents - {d.value.id}), None)
  }

  /** The document with one more exchange. */
  function Extended(env: Env, d: Document, text: string, locale: string, messageId: string, now: int): Document {
    var answer := env.guide(text, locale);
    d.(version := d.version + 1, updated := now,
       messages := d.messages + [User(text, messageId, env.digest(text, locale), now), Assistant(answer.0, answer.1, now)])
  }

  /** `send`. */
  function Exchange(env: Env, h: Home, s: Send, now: int): (Home, Result<Document, ConversationError>) {
    var found := Open(h, s.id);
    var text, messageId := Strip(s.text), Strip(s.messageId);
    if found.Err? then (h, found)
    else if text == "" || messageId == "" then (h, Err(Missing))
    else if |text| > MAX_TEXT || s.locale !in {"tr", "en"} || |messageId| > 128 then (h, Err(InvalidMessage))
    else
      var d := found.value;
      var replay := FindReplay(d.messages, messageId);
      if replay.Some? then (h, if replay.value.fingerprint != env.digest(text, s.locale) then Err(ReplayMismatch) else Ok(d))
      else if s.version != Some(d.version) then (h, Err(Changed))
      else if |d.messages| >= MAX_MESSAGES then (h, Err(MessageLimit))
      else
        var next := Extended(env, d, text, s.locale, messageId, now);
        (h.(documents := h.documents[d.id := next]), Ok(next))
  }

  // ----- the directory as an object -----

  class Archive {
    const env: Env
    const binding: string
    var documents: map<string, Document>

    function State(): Home
      reads this
    {
      Home(binding, documents)
    }

    constructor (env: Env, binding: string)
      ensures this.env == env && State() == Home(binding, map[])
    {
      this.env, this.binding := env, binding;
      documents := map[];
    }

    /** The search for an earlier message with the same id. */
    method SearchReplay(messages: seq<Message>, id: string) returns (replay: Option<Message>)
      ensures replay == FindReplay(messages, id)
    {
      var i := 0;
      while i < |messages|
        invariant 0 <= i <= |messages| && FindReplay(messages, id) == FindReplay(messages[i..], id)
      {
        if messages[i].User? && messages[i].messageId == id {
          return Some(messages[i]);
        }
        assert messages[i..][1..] == messages[i + 1..];
        i := i + 1;
      }
      return None;
    }

    method SendMessage(s: Send, now: int) returns (result: Result<Document, ConversationError>)
      modifies this
      ensures (State(), result) == Exchange(env, old(State()), s, now)
    {
      hide Strip, Loads, PlausibleId, FindReplay;
      var found := Open(State(), s.id);
      if found.Err? {
        return found;
      }
      var document := found.value;
      var text, messageId := Strip(s.text), Strip(s.messageId);
      if text == "" || messageId == "" {
        return Err(Missing);
      }
      if |text| > MAX_TEXT || s.locale !in {"tr", "en"} || |messageId| > 128 {
        return Err(InvalidMessage);
      }
      var replay := SearchReplay(document.messages, messageId);
      if replay.Some? {
        if replay.value.fingerprint != env.digest(text, s.locale) {
          return Err(ReplayMismatch);
        }
        return Ok(document);
      }
      if s.version != Some(document.version) {
        return Err(Changed);
      }
      if |document.messages| >= MAX_MESSAGES {
        return Err(MessageLimit);
      }
      var answer := env.guide(text, s.locale);
      var messages := document.messages
        + [User(text, messageId, env.digest(text, s.locale), now), Assistant(answer.0, answer.1, now)];
      document := document.(messages := messages, version := document.version + 1, updated := now);
      documents := documents[document.id := document];
      return Ok(document);
    }
  }

  // ----- runs -----

  datatype Op = DoCreate(newId: string, now: int) | DoSend(send: Send, now: int) | DoDelete(id: string)

  function Do(env: Env, h: Home, op: Op): Home {
    match op
    case DoCreate(newId, now) => Create(h, newId, now).0
    case DoSend(s, now) => Exchange(env, h, s, now).0
    case DoDelete(id) => Delete(h, id).0
  }

  function Perform(env: Env, h: Home, ops: seq<Op>): Home {
    if ops == [] then h else Do(env, Perform(env, h, ops[..|ops| - 1]), ops[|ops| - 1])
  }

  /** No two user messages of a document share an id. */
  predicate UniqueIds(messages: seq<Message>) {
    forall i, j :: 0 <= i < j < |messages| && messages[i].User? && messages[j].User? ==> messages[i].messageId != messages[j].messageId
  }

  predicate DocumentOk(binding: string, id: string, d: Document) {
    Loads(binding, id, d) && UniqueIds(d.messages)
  }

  predicate HomeOk(h: Home) {
    |h.documents| <= MAX_CONVERSATIONS && forall id :: id in h.documents ==> DocumentOk(h.binding, id, h.documents[id])
  }

  lemma ExtendedOk(env: Env, binding: string, id: string, d: Document, text: string, locale: string, messageId: string, now: int)
    requires DocumentOk(binding, id, d) && Brief(env) && |text| <= MAX_TEXT && |d.messages| < MAX_MESSAGES
    requires FindReplay(d.messages, messageId).None?
    ensures DocumentOk(binding, id, Extended(env, d, text, locale, messageId, now))
  {
    hide FindReplay;
    var n := Extended(env, d, text, locale, messageId, now);
    assert forall i :: 0 <= i < |d.messages| ==> n.messages[i] == d.messages[i] && d.messages[i] in d.messages;
  }

  lemma OpOk(env: Env, h: Home, op: Op)
    requires HomeOk(h) && Brief(env)
    ensures HomeOk(Do(env, h, op))
  {
    match op
    case DoCreate(newId, now) => CreateOk(h, newId, now); hide *;
    case DoSend(s, now) => SendOk(env, h, s, now); hide *;
    case DoDelete(id) => DeleteOk(h, id); hide *;
  }

  lemma CreateOk(h: Home, newId: string, now: int)
    requires HomeOk(h)
    ensures HomeOk(Create(h, newId, now).0)
  {
    NewOk(h.binding, newId, now);
    hide DocumentOk;
  }

  lemma SendOk(env: Env, h: Home, s: Send, now: int)
    requires HomeOk(h) && Brief(env)
    ensures HomeOk(Exchange(env, h, s, now).0)
  {
    hide DocumentOk, Brief, Strip, FindReplay, PlausibleId, Extended;
    if Exchange(env, h, s, now).0 != h {
      var d := Open(h, s.id).value;
      ExtendedOk(env, h.binding, d.id, d, Strip(s.text), s.locale, Strip(s.messageId), now);
    }
  }

  lemma DeleteOk(h: Home, id: string)
    requires HomeOk(h)
    ensures HomeOk(Delete(h, id).0)
  {
    hide DocumentOk, Strip, PlausibleId;
    if Open(h, id).Ok? { Smaller(h.documents, Open(h, id).value.id); }
  }

  lemma NewOk(binding: string, id: string, now: int)
    ensures DocumentOk(binding, id, Document(binding, id, 0, now, now, []))
  {
  }

  lemma Smaller<V>(m: map<string, V>, k: string)
    ensures |m - {k}| <= |m|
  {
    assert (m - {k}).Keys == m.Keys - {k};
    assert m.Keys == (m.Keys - {k}) + (m.Keys * {k});
  }

  /** Every document ever saved loads again, message ids are unique, and there are never more than a hundred documents. */
  lemma {:induction false} EverySavedDocumentLoads(env: Env, binding: string, ops: seq<Op>)
    requires Brief(env)
    ensures HomeOk(Perform(env, Home(binding, map[]), ops))
    ensures Perform(env, Home(binding, map[]), ops).binding == binding
  {
    hide Do, HomeOk;
    if ops != [] {
      EverySavedDocumentLoads(env, binding, ops[..|ops| - 1]);
      OpOk(env, Perform(env, Home(binding, map[]), ops[..|ops| - 1]), ops[|ops| - 1]);
      SameBinding(env, Perform(env, Home(binding, map[]), ops[..|ops| - 1]), ops[|ops| - 1]);
    } else {
      assert HomeOk(Home(binding, map[])) by { NoDocuments(binding); }
    }
  }

  lemma NoDocuments(binding: string)
    ensures HomeOk(Home(binding, map[]))
  {
  }

  lemma SameBinding(env: Env, h: Home, op: Op)
    ensures Do(env, h, op).binding == h.binding
  {
    hide Open, Strip, FindReplay, Extended;
  }

  // ----- one accepted send per version, and replays -----

  /** The generator never hands out an id twice. */
  predicate FreshIds(ops: seq<Op>, id: string) {
    forall k :: 0 <= k < |ops| && ops[k].DoCreate? ==> ops[k].newId != id
  }

  /** A document that is still there has only been added to. */
  predicate Grown(d: Document, h: Home, id: string) {
    id in h.documents ==> d.messages <= h.documents[id].messages && d.version <= h.documents[id].version
  }

  lemma OpGrows(env: Env, h: Home, op: Op, d: Document, id: string)
    requires Grown(d, h, id) && (op.DoCreate? ==> op.newId != id)
    requires op.DoSend? ==> id in h.documents || id !in Do(env, h, op).documents
    ensures Grown(d, Do(env, h, op), id)
  {
    hide Strip, FindReplay, PlausibleId, Loads, Open;
    if op.DoSend? && Open(h, op.send.id).Ok? { OpenedHere(h, op.send.id); }
    if op.DoDelete? && Open(h, op.id).Ok? { OpenedHere(h, op.id); }
  }

  lemma SendNeverCreates(env: Env, h: Home, op: Op, id: string)
    requires HomeOk(h) && id !in h.documents && (op.DoCreate? ==> op.newId != id)
    ensures id !in Do(env, h, op).documents
  {
    hide Strip, FindReplay, PlausibleId, UniqueIds;
  }

  lemma {:induction false} RunGrows(env: Env, h: Home, ops: seq<Op>, id: string)
    requires HomeOk(h) && Brief(env) && id in h.documents && FreshIds(ops, id)
    ensures HomeOk(Perform(env, h, ops)) && Grown(h.documents[id], Perform(env, h, ops), id)
  {
    hide Do, HomeOk, Brief;
    if ops != [] {
      var m, op := Perform(env, h, ops[..|ops| - 1]), ops[|ops| - 1];
      RunGrows(env, h, ops[..|ops| - 1], id);
      OpOk(env, m, op);
      if id !in m.documents { SendNeverCreates(env, m, op, id); }
      OpGrows(env, m, op, h.documents[id], id);
    }
  }

  lemma SentVersion(env: Env, h: Home, s: Send, now: int)
    requires Exchange(env, h, s, now).0 != h
    ensures var id, sent := Strip(s.id), Exchange(env, h, s, now).0;
            s.version.Some? && id in sent.documents && sent.documents[id].version == s.version.value + 1
  {
    OpenedHere(h, s.id);
    hide Strip, FindReplay, PlausibleId, Loads, Open;
  }

  lemma OldVersionChangesNothing(env: Env, h: Home, s: Send, now: int)
    requires s.version.Some? && (Strip(s.id) in h.documents ==> h.documents[Strip(s.id)].version > s.version.value)
    ensures Exchange(env, h, s, now).0 == h
  {
    if Open(h, s.id).Ok? { OpenedHere(h, s.id); }
    hide Strip, FindReplay, PlausibleId, Loads, Open;
  }

  /** A version is extended once: after an accepted send, no other message is ever accepted at that version. */
  lemma VersionExtendedOnce(env: Env, h: Home, s: Send, now: int, more: seq<Op>, other: Send, later: int)
    requires HomeOk(h) && Brief(env) && Exchange(env, h, s, now).0 != h
    requires Strip(other.id) == Strip(s.id) && other.version == s.version && FreshIds(more, Strip(s.id))
    ensures var h' := Perform(env, Exchange(env, h, s, now).0, more); Exchange(env, h', other, later).0 == h'
  {
    var id, sent := Strip(s.id), Exchange(env, h, s, now).0;
    OpOk(env, h, DoSend(s, now));
    SentVersion(env, h, s, now);
    hide Strip, Exchange, HomeOk, Brief, FreshIds, Perform;
    RunGrows(env, sent, more, id);
    OldVersionChangesNothing(env, Perform(env, sent, more), other, later);
  }

  lemma OpenedHere(h: Home, idText: string)
    requires Open(h, idText).Ok?
    ensures Strip(idText) in h.documents && Open(h, idText).value == h.documents[Strip(idText)] && h.documents[Strip(idText)].id == Strip(idText)
  {
    hide Strip;
  }

  lemma OpensAgain(h: Home, h': Home, idText: string, again: string)
    requires Open(h, idText).Ok? && HomeOk(h') && Strip(again) == Strip(idText) && Strip(idText) in h'.documents
    ensures Open(h', again) == Ok(h'.documents[Strip(idText)])
  {
    hide Strip, UniqueIds;
  }

  lemma FoundLater(messages: seq<Message>, more: seq<Message>, m: Message)
    requires messages <= more && m in messages && m.User? && UniqueIds(more)
    ensures FindReplay(more, m.messageId) == Some(m)
  {
    hide UniqueIds;
    assert m in more by {
      var i :| 0 <= i < |messages| && messages[i] == m;
      assert more[i] == m;
    }
    assert FindReplay(more, m.messageId).Some?;
    SameId(more, m, FindReplay(more, m.messageId).value);
  }

  lemma SameId(messages: seq<Message>, a: Message, b: Message)
    requires UniqueIds(messages) && a in messages && b in messages && a.User? && b.User? && a.messageId == b.messageId
    ensures a == b
  {
  }

  /** The document a request names, and that it passes the load checks. */
  predicate Opens(h: Home, id: string) {
    && |id| == 32 && (forall i :: 0 <= i < |id| ==> '0' <= id[i] <= '9' || 'a' <= id[i] <= 'f')
    && id in h.documents
    && var d := h.documents[id];
       && d.binding == h.binding && d.id == id && |d.messages| <= 200 && |d.messages| == 2 * d.version
       && (forall i :: 0 <= i < |d.messages| ==> d.messages[i].User? == (i % 2 == 0) && |d.messages[i].text| <= 8000)
  }

  lemma OpensExactly(h: Home, idText: string)
    ensures Open(h, idText).Ok? <==> Strip(idText) != "" && Opens(h, Strip(idText))
    ensures Open(h, idText).Ok? ==> Open(h, idText).value == h.documents[Strip(idText)]
  {
    var id := Strip(idText);
    hide Strip;
    assert PlausibleId(id) <==> |id| == 32 && forall i :: 0 <= i < |id| ==> '0' <= id[i] <= '9' || 'a' <= id[i] <= 'f';
  }

  /** Some message of the document has this id. */
  predicate SentBefore(d: Document, messageId: string) {
    exists i :: 0 <= i < |d.messages| && d.messages[i].User? && d.messages[i].messageId == messageId
  }

  lemma ReplayExactly(d: Document, messageId: string)
    ensures FindReplay(d.messages, messageId).Some? <==> SentBefore(d, messageId)
  {
    var r := FindReplay(d.messages, messageId);
    if r.Some? {
      var i :| 0 <= i < |d.messages| && d.messages[i] == r.value;
      assert SentBefore(d, messageId);
    }
    if SentBefore(d, messageId) {
      var i :| 0 <= i < |d.messages| && d.messages[i].User? && d.messages[i].messageId == messageId;
      assert d.messages[i] in d.messages;
    }
    hide FindReplay;
  }

  /**
   * A message never sent before is accepted exactly if it is complete, within bounds, and names the version of a document
   * that is not full; the document then gains the message and the guidance for exactly that text and locale.
   */
  lemma SendsExactly(env: Env, h: Home, s: Send, now: int)
    requires Strip(s.id) in h.documents ==> !SentBefore(h.documents[Strip(s.id)], Strip(s.messageId))
    ensures var (h', r) := Exchange(env, h, s, now);
            var id, text, messageId := Strip(s.id), Strip(s.text), Strip(s.messageId);
            && (r.Ok? <==>
                  && id != "" && Opens(h, id) && text != "" && |text| <= 8000 && s.locale in {"tr", "en"}
                  && messageId != "" && |messageId| <= 128
                  && s.version == Some(h.documents[id].version) && |h.documents[id].messages| < 200)
            && (r.Ok? ==>
                  var d, n := h.documents[id], |h.documents[id].messages|;
                  && h' == h.(documents := h.documents[id := r.value])
                  && r.value.binding == d.binding && r.value.id == id && r.value.created == d.created
                  && r.value.version == d.version + 1 && r.value.updated == now
                  && |r.value.messages| == n + 2 && r.value.messages[..n] == d.messages
                  && r.value.messages[n] == User(text, messageId, env.digest(text, s.locale), now)
                  && r.value.messages[n + 1] == Assistant(env.guide(text, s.locale).0, env.guide(text, s.locale).1, now))
            && (r.Err? ==> h' == h)
  {
    var id := Strip(s.id);
    hide Strip, FindReplay, Open, Opens, SentBefore;
    OpensExactly(h, s.id);
    if id in h.documents { ReplayExactly(h.documents[id], Strip(s.messageId)); }
    assert Opens(h, id) ==> id in h.documents && h.documents[id].id == id by { OpenedId(h, id); }
  }

  /** A new document is empty, at version zero, and refused exactly once there are a hundred. */
  lemma CreatesExactly(h: Home, newId: string, now: int)
    ensures var (h', r) := Create(h, newId, now);
            && (r.Ok? <==> |h.documents| < 100)
            && (r.Ok? ==> r.value == Document(h.binding, newId, 0, now, now, []) && h' == h.(documents := h.documents[newId := r.value]))
            && (r.Err? ==> h' == h)
  {
  }

  /** A deletion succeeds exactly for a document that loads, and removes that one. */
  lemma DeletesExactly(h: Home, idText: string)
    ensures var (h', refusal) := Delete(h, idText);
            && (refusal.None? <==> Strip(idText) != "" && Opens(h, Strip(idText)))
            && h' == (if refusal.None? then h.(documents := h.documents - {Strip(idText)}) else h)
  {
    hide Strip, Open, Opens;
    OpensExactly(h, idText);
    assert Opens(h, Strip(idText)) ==> Strip(idText) in h.documents && h.documents[Strip(idText)].id == Strip(idText) by { OpenedId(h, Strip(idText)); }
  }

  lemma OpenedId(h: Home, id: string)
    ensures Opens(h, id) ==> id in h.documents && h.documents[id].id == id
  {
  }

  /** A message that was accepted can be sent again at any version: it changes nothing; with other content it is refused. */
  lemma ReplaysChangeNothing(env: Env, h: Home, s: Send, now: int, more: seq<Op>, again: Send, later: int)
    requires HomeOk(h) && Brief(env) && Exchange(env, h, s, now).0 != h && FreshIds(more, Strip(s.id))
    requires Strip(again.id) == Strip(s.id) && Strip(again.messageId) == Strip(s.messageId)
    requires Strip(again.text) != "" && |Strip(again.text)| <= MAX_TEXT && again.locale in {"tr", "en"}
    requires Strip(s.id) in Perform(env, Exchange(env, h, s, now).0, more).documents
    ensures var h' := Perform(env, Exchange(env, h, s, now).0, more);
            Exchange(env, h', again, later) ==
            (h', if env.digest(Strip(again.text), again.locale) == env.digest(Strip(s.text), s.locale) then Ok(h'.documents[Strip(s.id)])
                 else Err(ReplayMismatch))
  {
    var id, sent := Strip(s.id), Exchange(env, h, s, now).0;
    OpOk(env, h, DoSend(s, now));
    hide Strip, PlausibleId, HomeOk, Brief, FreshIds, Loads, FindReplay;
    OpenedHere(h, s.id);
    var d, mine := sent.documents[id], User(Strip(s.text), Strip(s.messageId), env.digest(Strip(s.text), s.locale), now);
    assert mine in d.messages by { assert d.messages[|d.messages| - 2] == mine; }
    RunGrows(env, sent, more, id);
    var h' := Perform(env, sent, more);
    OpensAgain(h, h', s.id, again.id);
    FoundLater(d.messages, h'.documents[id].messages, mine);
    hide Perform, UniqueIds;
  }
}
