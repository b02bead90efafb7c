/** The delivery vocabulary shared by the broker tasks (src/apps/profiles/tasks/broker.py)
    and the websocket consumers (src/apps/vendors/consumers.py,
    src/apps/profiles/consumers/user.py): the shared connection store, the
    messages put on the channel layer, the queued tasks, the consumers'
    in-process connection dicts and the parsing of a connection's query string. */
module Channels {
  import opened Common

  // ---------------------------------------------------------------------------
  // Topics of the connection store and types of the channel-layer events

  const VendorTopic := "vendor_connections"
  const DeletedOrderTopic := "deleted_order_connections"
  const UserTopic := "user_connections"
  const DeletedOffersTopic := "deleted_offers_connections"
  const PaymentTopic := "payment_connections"

  const SendOrdersType := "send_orders"
  const SendDeletedOrderIdType := "send_deleted_order_id"
  const SendOffersType := "send_offers"
  const SendDeletedOffersIdType := "send_deleted_offers_id"
  const SendPaymentStatusType := "send_payment_status"

  /** The shared store: `hset(topic, email, channel)` / `hget` / `hdel`. */
  type Registry = map<(string, Email), string>

  /** What an event carries, in place of the JSON text the serializers produce. */
  datatype Payload =
    /** One serialized order with its `matched_price` annotation. */
    | OrderRecord(order: Id, matchedPrice: Option<int>)
    /** A batch of serialized orders. */
    | OrderRecords(orders: seq<Id>)
    | OfferRecord(offer: Id)
    | OfferRecords(offers: seq<Id>)
    /** `json.dumps(str(id))`. */
    | IdText(id: Id)
    /** `json.dumps([str(id), ...])`. */
    | IdTexts(ids: seq<Id>)
    /** `json.dumps({'status': is_payed})`. */
    | PaymentStatus(status: Option<bool>)

  /** `channel_layer.send(channel, {'type': kind, 'message': payload})`. */
  datatype Message = Message(channel: string, kind: string, payload: Payload)

  /** A queued task with its arguments. */
  datatype Task =
    | SendOrder(order: Id, email: Email)
    | SendOrders(email: Email)
    | ExpireOrder(order: Id, email: Email, topic: string, kind: string)
    | SendOffer(offer: Id, email: Email)
    | SendOffers(email: Email)
    | SendDeletedOffers(email: Email)
    | ExpireOffer(offer: Id, email: Email, topic: string, kind: string)
    | SendPaymentStatus(transaction: Id)
    | SendSomePaymentStatus(email: Email)
    | SendVerificationCode(email: Email)

  /** `task.delay(...)` is due now; `apply_async(..., countdown=c)` is due c seconds later. */
  datatype Job = Job(due: int, task: Task)

  // ---------------------------------------------------------------------------
  // The query string

  /** Python's `s.split(c)`: the pieces between the separators, never an empty list. */
  function Split(s: string, c: char): (r: seq<string>)
    ensures |r| >= 1
    ensures forall k :: 0 <= k < |r| ==> c !in r[k]
    ensures |r| == 1 <==> c !in s
    decreases |s|
  {
    if s == [] then [""]
    else
      var rest := Split(s[1..], c);
      assert forall i :: 1 <= i < |s| ==> s[i] == s[1..][i - 1];
      if s[0] == c then
        assert ([""] + rest)[1..] == rest;
        [""] + rest
      else
        var r := [[s[0]] + rest[0]] + rest[1..];
        assert r[1..] == rest[1..];
        assert forall k :: 1 <= k < |r| ==> r[k] == rest[k];
        r
  }

  /** Joining the pieces with the separator gives the text back. */
  lemma {:induction false} SplitThenJoin(s: string, c: char)
    ensures Join(Split(s, c), [c]) == s
    decreases |s|
  {
    if s != [] {
      var rest := Split(s[1..], c);
      SplitThenJoin(s[1..], c);
      assert s == [s[0]] + s[1..];
      if s[0] == c {
        assert ([""] + rest)[1..] == rest;
      } else {
        var r := [[s[0]] + rest[0]] + rest[1..];
        assert r[1..] == rest[1..];
        if |rest| > 1 {
          assert Join(rest, [c]) == rest[0] + [c] + Join(rest[1..], [c]);
        }
      }
    }
  }

  /** A word free of the separator stays one piece in front of what follows it. */
  lemma {:induction false} SplitPrefix(w: string, s: string, c: char)
    requires c !in w
    ensures Split(w + s, c) == [w + Split(s, c)[0]] + Split(s, c)[1..]
    decreases |w|
  {
    var t := Split(s, c);
    if w == [] {
      assert w + s == s && w + t[0] == t[0];
      assert t == [t[0]] + t[1..];
    } else {
      assert (w + s)[1..] == w[1..] + s;
      SplitPrefix(w[1..], s, c);
      assert [w[0]] + (w[1..] + t[0]) == w + t[0];
    }
  }

  /** Splitting the joined pieces gives the pieces back. */
  lemma {:induction false} SplitJoin(pieces: seq<string>, c: char)
    requires |pieces| >= 1
    requires forall k :: 0 <= k < |pieces| ==> c !in pieces[k]
    ensures Split(Join(pieces, [c]), c) == pieces
    decreases |pieces|
  {
    var w := pieces[0];
    if |pieces| == 1 {
      assert Join(pieces, [c]) == w;
      SplitPrefix(w, "", c);
      assert w + "" == w;
      assert Split("", c) == [""];
    } else {
      var rest := pieces[1..];
      var j := Join(rest, [c]);
      assert Join(pieces, [c]) == w + ([c] + j);
      SplitJoin(rest, c);
      assert Split([c] + j, c) == [""] + Split(j, c) by {
        assert ([c] + j)[1..] == j;
      }
      SplitPrefix(w, [c] + j, c);
      assert ([""] + rest)[0] == "" && ([""] + rest)[1..] == rest;
      assert w + "" == w;
      assert pieces == [w] + rest;
    }
  }

  /** `query_string.split('=')[1]`; None is the IndexError of a query without '='. */
  function QueryValue(query: string): (r: Option<string>)
    ensures r.None? <==> '=' !in query
    ensures r.Some? ==> '=' !in r.value
  {
    var fields := Split(query, '=');
    if |fields| > 1 then Some(fields[1]) else None
  }

  /** `token=<t>` (and `user_id=<t>`) yields `t`. */
  lemma QueryValueOfParameter(name: string, t: string)
    requires '=' !in name && '=' !in t
    ensures QueryValue(name + "=" + t) == Some(t)
  {
    SplitJoin([name, t], '=');
    assert Join([name, t], "=") == name + "=" + t by {
      assert [name, t][1..] == [t];
    }
  }

  // ---------------------------------------------------------------------------
  // A consumer's class-level dict `{email: channel}`, in insertion order

  type ConnDict = seq<(Email, string)>

  predicate KeysUnique(d: ConnDict) {
    forall i, j :: 0 <= i < j < |d| ==> d[i].0 != d[j].0
  }

  /** `d.get(k)`. */
  function DictGet(d: ConnDict, k: Email): (r: Option<string>)
    ensures r.Some? ==> (k, r.value) in d
    ensures r.None? ==> forall e :: e in d ==> e.0 != k
  {
    if d == [] then None
    else if d[0].0 == k then Some(d[0].1)
    else DictGet(d[1..], k)
  }

  /** `d[k] = v`: an existing key keeps its place and takes the new value; a new key goes last. */
  function DictPut(d: ConnDict, k: Email, v: string): (r: ConnDict)
    ensures DictGet(r, k) == Some(v)
    ensures forall k' :: k' != k ==> DictGet(r, k') == DictGet(d, k')
    ensures |r| == |d| + (if DictGet(d, k).None? then 1 else 0)
  {
    if d == [] then [(k, v)]
    else if d[0].0 == k then
      var r := [(k, v)] + d[1..];
      assert r[1..] == d[1..];
      r
    else
      var rest := DictPut(d[1..], k, v);
      var r := [d[0]] + rest;
      assert r[1..] == rest;
      r
  }

  lemma {:induction false} DictPutKeepsUnique(d: ConnDict, k: Email, v: string)
    requires KeysUnique(d)
    ensures KeysUnique(DictPut(d, k, v))
  {
    if d != [] && d[0].0 != k {
      var rest := DictPut(d[1..], k, v);
      DictPutKeepsUnique(d[1..], k, v);
      assert DictPut(d, k, v) == [d[0]] + rest;
      forall j | 0 <= j < |rest| ensures rest[j].0 != d[0].0 {
        var e := rest[j];
        assert e in rest;
        assert DictGet(rest, e.0).Some?;
        if e.0 != k {
          KeysUniqueTail(d);
        }
      }
    } else if d != [] {
      assert DictPut(d, k, v)[1..] == d[1..];
    }
  }

  lemma KeysUniqueTail(d: ConnDict)
    requires KeysUnique(d) && d != []
    ensures DictGet(d[1..], d[0].0).None?
  {
    assert forall e :: e in d[1..] ==> e.0 != d[0].0 by {
      forall e | e in d[1..] ensures e.0 != d[0].0 {
        var i :| 0 <= i < |d[1..]| && d[1..][i] == e;
        assert d[i + 1] == e;
      }
    }
  }

  /** A new key is appended at the end. */
  lemma {:induction false} DictPutAppends(d: ConnDict, k: Email, v: string)
    requires DictGet(d, k).None?
    ensures DictPut(d, k, v) == d + [(k, v)]
  {
    if d != [] {
      DictPutAppends(d[1..], k, v);
      assert d + [(k, v)] == [d[0]] + (d[1..] + [(k, v)]);
    }
  }

  /** `del d[k]`. */
  function DictDel(d: ConnDict, k: Email): (r: ConnDict)
    requires KeysUnique(d)
    ensures KeysUnique(r)
    ensures DictGet(r, k).None?
    ensures forall k' :: k' != k ==> DictGet(r, k') == DictGet(d, k')
    ensures forall e :: e in r <==> e in d && e.0 != k
  {
    if d == [] then []
    else
      var rest := DictDel(d[1..], k);
      assert forall i :: 1 <= i < |d| ==> d[i] == d[1..][i - 1];
      if d[0].0 == k then
        assert forall e :: e in d[1..] ==> e.0 != k;
        rest
      else
        var r := [d[0]] + rest;
        assert r[1..] == rest;
        assert forall j :: 0 <= j < |rest| ==> rest[j] in rest && rest[j] in d[1..];
        r
  }

  /** The keys the disconnect loop collects: every email whose value is `channel`, in order. */
  function KeysFor(d: ConnDict, channel: string): (r: seq<Email>)
    ensures forall e :: e in r <==> (e, channel) in d
    ensures |r| <= |d|
  {
    if d == [] then []
    else
      assert forall i :: 1 <= i < |d| ==> d[i] == d[1..][i - 1];
      (if d[0].1 == channel then [d[0].0] else []) + KeysFor(d[1..], channel)
  }

  lemma KeysForSnoc(d: ConnDict, channel: string, i: nat)
    requires i < |d|
    ensures KeysFor(d[..i + 1], channel) == KeysFor(d[..i], channel) + (if d[i].1 == channel then [d[i].0] else [])
    decreases i
  {
    if i > 0 {
      assert d[..i + 1][1..] == d[1..][..i];
      assert d[..i][1..] == d[1..][..i - 1];
      KeysForSnoc(d[1..], channel, i - 1);
    }
  }

  /** A reconnect under the same e-mail leaves the dict as if only the second connection
      had been made: the old channel is overwritten, no entry is added. */
  lemma {:induction false} ReconnectOverwrites(d: ConnDict, k: Email, v1: string, v2: string)
    ensures DictPut(DictPut(d, k, v1), k, v2) == DictPut(d, k, v2)
  {
    if d != [] && d[0].0 != k {
      ReconnectOverwrites(d[1..], k, v1, v2);
      assert ([d[0]] + DictPut(d[1..], k, v1))[1..] == DictPut(d[1..], k, v1);
    } else if d != [] {
      assert ([(k, v1)] + d[1..])[1..] == d[1..];
    }
  }

  // ---------------------------------------------------------------------------
  // Admission of a websocket connection

  /** What `jwt.decode` does with the token. */
  datatype TokenResult =
    | Decoded(userId: Option<string>)
    | ExpiredSignature
    | DecodeFailure
    | OtherFailure(message: string)

  /** What the consumer does after accepting: register the e-mail, or close with code 4001,
      having first sent `text` when there is one. */
  datatype Admission = Admitted(email: Email) | Closed(text: Option<string>)

  const CloseCode := 4001
  const InvalidTokenText := "{\"error\": \"Invalid token\"}"

  /** `f'{{"error": "{str(e)}"}}'`. */
  function ErrorText(message: string): string {
    "{\"error\": \"" + message + "\"}"
  }

  /** Django's `str()` of the errors `Model.objects.get(id=...)` raises: an id that is not
      the text of a key, or a key with no row. */
  function LookupFailure(model: string, idText: string, table: map<Id, Email>): (r: Option<string>)
    ensures r.None? <==> exists id :: id in table && ParseNat(idText) == Some(id)
    ensures ParseNat(idText).None? ==> r == Some("['“" + idText + "” is not a valid UUID.']")
    ensures ParseNat(idText).Some? && ParseNat(idText).value !in table ==> r == Some(model + " matching query does not exist.")
  {
    match ParseNat(idText)
    case None => Some("['“" + idText + "” is not a valid UUID.']")
    case Some(id) => if id in table then None else Some(model + " matching query does not exist.")
  }

  /** The `try` block of `connect`: decode the token, read `user_id`, look the account up in
      `table` (the `User` or `Vendor` rows, by id, giving the e-mail). */
  function Admit(token: string, decode: string -> TokenResult, model: string, table: map<Id, Email>): (r: Admission)
    ensures (decode(token).ExpiredSignature? || decode(token).DecodeFailure?) ==> r == Closed(Some(InvalidTokenText))
    ensures decode(token).Decoded? && (decode(token).userId.None? || decode(token).userId == Some("")) ==> r == Closed(None)
    ensures r.Admitted? <==>
      decode(token).Decoded? && decode(token).userId.Some? && ParseNat(decode(token).userId.value).Some?
      && ParseNat(decode(token).userId.value).value in table
    ensures r.Admitted? ==> r.email == table[ParseNat(decode(token).userId.value).value]
  {
    match decode(token)
    case ExpiredSignature => Closed(Some(InvalidTokenText))
    case DecodeFailure => Closed(Some(InvalidTokenText))
    case OtherFailure(m) => Closed(Some(ErrorText(m)))
    case Decoded(userId) =>
      if userId.None? || userId.value == "" then Closed(None)
      else
        match LookupFailure(model, userId.value, table)
        case Some(m) => Closed(Some(ErrorText(m)))
        case None => Admitted(table[ParseNat(userId.value).value])
  }
}
