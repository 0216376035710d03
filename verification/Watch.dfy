/** Watching a transcript: one shared offset for each session, one read for each
    format asked for, and what every subscriber is offered. */
module Watch {
  import opened Wrappers
  import opened Utf8
  import opened Transcript
  import Daemon

  datatype Subscriber = Subscriber(format: string, tx: nat)

  datatype Offer<M> = Offer(tx: nat, id: string, message: M)

  /** For each format, the parser of its lines. */
  type Parsers<M> = string -> string -> Option<M>

  /** `file` is what each format's own read of the transcript finds; `order` is
      the order in which the formats are visited. */
  datatype Input =
    | Watched(id: string, format: string, tx: nat, size: nat)
    | Unwatched(id: string)
    | Changed(id: string, file: string -> Option<Bytes>, order: seq<string>, closed: set<nat>)
    | Known(id: string, hasPath: bool)
    | Gone(id: string)

  function Senders(subs: seq<Subscriber>, format: string): seq<nat> {
    if subs == [] then []
    else (if subs[0].format == format then [subs[0].tx] else []) + Senders(subs[1..], format)
  }

  function Formats(subs: seq<Subscriber>): set<string> {
    if subs == [] then {} else {subs[0].format} + Formats(subs[1..])
  }

  function Open(subs: seq<Subscriber>, closed: set<nat>): seq<Subscriber> {
    if subs == [] then []
    else (if subs[0].tx in closed then [] else [subs[0]]) + Open(subs[1..], closed)
  }

  /** One message to every sender, then the next message. */
  function ToAll<M>(id: string, message: M, senders: seq<nat>): seq<Offer<M>> {
    if senders == [] then [] else [Offer(senders[0], id, message)] + ToAll(id, message, senders[1..])
  }

  function Offers<M>(id: string, messages: seq<M>, senders: seq<nat>): seq<Offer<M>> {
    if messages == [] then [] else ToAll(id, messages[0], senders) + Offers(id, messages[1..], senders)
  }

  function Mine<M>(offer: Offer<M>, id: string, tx: nat): seq<M> {
    if offer.tx == tx && offer.id == id then [offer.message] else []
  }

  /** The messages of session `id` offered to `tx`, oldest first. */
  function Received<M>(offers: seq<Offer<M>>, id: string, tx: nat): seq<M> {
    if offers == [] then [] else Mine(offers[0], id, tx) + Received(offers[1..], id, tx)
  }

  datatype Watches<M> = Watches(
    offsets: map<string, Option<nat>>,
    paths: set<string>,
    subscribers: map<string, seq<Subscriber>>,
    offered: seq<Offer<M>>)
  {
    ghost function Canonical(id: string): string {
      match Daemon.ResolveKey(offsets.Keys, id)
      case Some(key) => key
      case None => id
    }

    function SubscribersOf(id: string): seq<Subscriber> {
      if id in subscribers then subscribers[id] else []
    }

    function Store(id: string, offset: Option<nat>): Watches<M> {
      if id in offsets then this.(offsets := offsets[id := offset]) else this
    }

    function Watch(key: string, format: string, tx: nat, size: nat): Watches<M> {
      var w := if key in paths then Store(key, Some(size)) else this;
      w.(subscribers := subscribers[key := SubscribersOf(key) + [Subscriber(format, tx)]])
    }

    function Unwatch(key: string): Watches<M> {
      Store(key, None).(subscribers := subscribers - {key})
    }

    /** One read and one round of offers for the subscribers of one format. */
    function Round(id: string, offset: nat, file: string -> Option<Bytes>, format: string,
                   parse: Parsers<M>): Watches<M> {
      var (messages, next) := ReadNew(file(format), offset, parse(format));
      var offers := Offers(id, messages, Senders(SubscribersOf(id), format));
      Store(id, Some(next)).(offered := offered + offers)
    }

    /** A round for each format of `order`, all from the same `offset`. */
    function Serve(id: string, offset: nat, file: string -> Option<Bytes>, order: seq<string>,
                   parse: Parsers<M>): Watches<M>
      decreases |order|
    {
      if order == [] then this
      else Round(id, offset, file, order[0], parse).Serve(id, offset, file, order[1..], parse)
    }

    function Offset(id: string): nat {
      if id in offsets && offsets[id].Some? then offsets[id].value else 0
    }

    function Sweep(closed: set<nat>): Watches<M> {
      this.(subscribers := map id | id in subscribers && Open(subscribers[id], closed) != [] :: Open(subscribers[id], closed))
    }

    function Change(id: string, file: string -> Option<Bytes>, order: seq<string>, closed: set<nat>,
                    parse: Parsers<M>): Watches<M> {
      (if SubscribersOf(id) == [] then this else Serve(id, Offset(id), file, order, parse)).Sweep(closed)
    }

    /** Whatever other arms do to the session table. */
    function Know(id: string, hasPath: bool): Watches<M> {
      this.(offsets := if id in offsets then offsets else offsets[id := None],
            paths := if hasPath then paths + {id} else paths)
    }

    function Forget(id: string): Watches<M> {
      this.(offsets := offsets - {id}, paths := paths - {id})
    }

    ghost function Step(input: Input, parse: Parsers<M>): Watches<M> {
      match input
      case Watched(id, format, tx, size) => Watch(Canonical(id), format, tx, size)
      case Unwatched(id) => Unwatch(Canonical(id))
      case Changed(id, file, order, closed) => Change(id, file, order, closed, parse)
      case Known(id, hasPath) => Know(id, hasPath)
      case Gone(id) => Forget(id)
    }

    ghost function Run(inputs: seq<Input>, parse: Parsers<M>): Watches<M>
      decreases |inputs|
    {
      if inputs == [] then this else Step(inputs[0], parse).Run(inputs[1..], parse)
    }
  }

  // ------------------------------------------------------------ one change

  predicate Absent(subs: seq<Subscriber>, tx: nat) {
    subs == [] || (subs[0].tx != tx && Absent(subs[1..], tx))
  }

  /** `tx` subscribes once, for `format`. */
  predicate Sole(subs: seq<Subscriber>, format: string, tx: nat) {
    && subs != []
    && (if subs[0].tx == tx then subs[0].format == format && Absent(subs[1..], tx) else Sole(subs[1..], format, tx))
  }

  lemma {:induction false} ReceivedConcat<M>(a: seq<Offer<M>>, b: seq<Offer<M>>, id: string, tx: nat)
    ensures Received(a + b, id, tx) == Received(a, id, tx) + Received(b, id, tx)
  {
    if a == [] {
      assert a + b == b;
    } else {
      ReceivedConcat(a[1..], b, id, tx);
      assert (a + b)[1..] == a[1..] + b;
      ConcatAssociative(Mine(a[0], id, tx), Received(a[1..], id, tx), Received(b, id, tx));
    }
  }

  lemma ReceivedCons<M>(offer: Offer<M>, rest: seq<Offer<M>>, id: string, tx: nat)
    ensures Received([offer] + rest, id, tx) == Mine(offer, id, tx) + Received(rest, id, tx)
  {
  }

  lemma ToFirst<M>(id: string, message: M, subs: seq<Subscriber>, at: string, tx: nat)
    requires subs != []
    ensures Received(ToAll(id, message, Senders(subs, at)), id, tx)
            == (if subs[0] == Subscriber(at, tx) then [message] else [])
               + Received(ToAll(id, message, Senders(subs[1..], at)), id, tx)
  {
    var later := Senders(subs[1..], at);
    if subs[0].format == at {
      assert Senders(subs, at)[0] == subs[0].tx && Senders(subs, at)[1..] == later;
      ReceivedCons(Offer(subs[0].tx, id, message), ToAll(id, message, later), id, tx);
    } else {
      assert Senders(subs, at) == later;
    }
  }

  lemma {:induction false} ToAbsent<M>(id: string, message: M, subs: seq<Subscriber>, at: string, tx: nat)
    requires Absent(subs, tx)
    ensures Received(ToAll(id, message, Senders(subs, at)), id, tx) == []
  {
    if subs == [] {
    } else {
      ToAbsent(id, message, subs[1..], at, tx);
      ToFirst(id, message, subs, at, tx);
    }
  }

  /** Of one format's round, a subscriber sees the message if it asked for that format. */
  lemma {:induction false} ToSole<M>(id: string, message: M, subs: seq<Subscriber>, at: string, format: string, tx: nat)
    requires Sole(subs, format, tx)
    ensures Received(ToAll(id, message, Senders(subs, at)), id, tx) == if at == format then [message] else []
  {
    ToFirst(id, message, subs, at, tx);
    if subs[0].tx == tx {
      ToAbsent(id, message, subs[1..], at, tx);
    } else {
      ToSole(id, message, subs[1..], at, format, tx);
    }
  }

  lemma {:induction false} RoundToSole<M>(id: string, messages: seq<M>, subs: seq<Subscriber>, at: string,
                                          format: string, tx: nat)
    requires Sole(subs, format, tx)
    ensures Received(Offers(id, messages, Senders(subs, at)), id, tx) == if at == format then messages else []
  {
    if messages == [] {
    } else {
      ToSole(id, messages[0], subs, at, format, tx);
      RoundToSole(id, messages[1..], subs, at, format, tx);
      var senders := Senders(subs, at);
      ReceivedConcat(ToAll(id, messages[0], senders), Offers(id, messages[1..], senders), id, tx);
      assert Offers(id, messages, senders) == ToAll(id, messages[0], senders) + Offers(id, messages[1..], senders);
      assert messages == [messages[0]] + messages[1..];
    }
  }

  lemma {:induction false} OneToOtherSession<M>(id: string, message: M, senders: seq<nat>, other: string, tx: nat)
    requires other != id
    ensures Received(ToAll(id, message, senders), other, tx) == []
  {
    if senders == [] {
    } else {
      OneToOtherSession(id, message, senders[1..], other, tx);
      assert ToAll(id, message, senders)[1..] == ToAll(id, message, senders[1..]);
    }
  }

  lemma {:induction false} ToOtherSession<M>(id: string, messages: seq<M>, senders: seq<nat>, other: string, tx: nat)
    requires other != id
    ensures Received(Offers(id, messages, senders), other, tx) == []
  {
    if messages == [] {
    } else {
      OneToOtherSession(id, messages[0], senders, other, tx);
      ToOtherSession(id, messages[1..], senders, other, tx);
      ReceivedConcat(ToAll(id, messages[0], senders), Offers(id, messages[1..], senders), other, tx);
    }
  }

  /** The formats are visited in some order, each once. */
  predicate Distinct(order: seq<string>) {
    order == [] || (order[0] !in order[1..] && Distinct(order[1..]))
  }

  lemma {:induction false} EnumerationDistinct(order: seq<string>, s: set<string>)
    requires Enumerates(order, s)
    ensures Distinct(order)
  {
    if order == [] {
    } else {
      EnumerationTail(order, s);
      EnumerationDistinct(order[1..], s - {order[0]});
    }
  }

  lemma RoundSole<M>(w: Watches<M>, id: string, offset: nat, file: string -> Option<Bytes>, at: string,
                     parse: Parsers<M>,
                     format: string, tx: nat)
    requires Sole(w.SubscribersOf(id), format, tx)
    ensures var after := w.Round(id, offset, file, at, parse);
      && after.SubscribersOf(id) == w.SubscribersOf(id)
      && Received(after.offered, id, tx)
         == Received(w.offered, id, tx) + if at == format then ReadNew(file(at), offset, parse(at)).0 else []
  {
    var messages := ReadNew(file(at), offset, parse(at)).0;
    RoundToSole(id, messages, w.SubscribersOf(id), at, format, tx);
    ReceivedConcat(w.offered, Offers(id, messages, Senders(w.SubscribersOf(id), at)), id, tx);
  }

  lemma {:induction false} ServeSole<M>(w: Watches<M>, id: string, offset: nat, file: string -> Option<Bytes>,
                                        order: seq<string>, parse: Parsers<M>, format: string, tx: nat)
    requires Distinct(order) && Sole(w.SubscribersOf(id), format, tx)
    ensures Received(w.Serve(id, offset, file, order, parse).offered, id, tx)
            == Received(w.offered, id, tx)
               + if format in order then ReadNew(file(format), offset, parse(format)).0 else []
    decreases |order|
  {
    if order == [] {
    } else {
      RoundSole(w, id, offset, file, order[0], parse, format, tx);
      ServeSole(w.Round(id, offset, file, order[0], parse), id, offset, file, order[1..], parse, format, tx);
      var before, read := Received(w.offered, id, tx), ReadNew(file(format), offset, parse(format)).0;
      assert before + [] == before && before + read + [] == before + read;
      assert format in order <==> format == order[0] || format in order[1..];
    }
  }

  /** The last format visited decides the stored offset. */
  lemma {:induction false} ServeFrame<M>(w: Watches<M>, id: string, offset: nat, file: string -> Option<Bytes>,
                                         order: seq<string>, parse: Parsers<M>)
    requires order != []
    ensures var after, last := w.Serve(id, offset, file, order, parse), order[|order| - 1];
      && after.subscribers == w.subscribers && after.paths == w.paths
      && after.offsets == w.Store(id, Some(ReadNew(file(last), offset, parse(last)).1)).offsets
    decreases |order|
  {
    var next := w.Round(id, offset, file, order[0], parse);
    if order[1..] == [] {
      assert next.Serve(id, offset, file, order[1..], parse) == next;
    } else {
      assert order[1..][|order[1..]| - 1] == order[|order| - 1];
      ServeFrame(next, id, offset, file, order[1..], parse);
    }
  }

  lemma {:induction false} ServeOther<M>(w: Watches<M>, id: string, offset: nat, file: string -> Option<Bytes>,
                                         order: seq<string>, parse: Parsers<M>, other: string, tx: nat)
    requires other != id
    ensures Received(w.Serve(id, offset, file, order, parse).offered, other, tx) == Received(w.offered, other, tx)
    decreases |order|
  {
    if order == [] {
    } else {
      var at := order[0];
      var messages := ReadNew(file(at), offset, parse(at)).0;
      ToOtherSession(id, messages, Senders(w.SubscribersOf(id), at), other, tx);
      ReceivedConcat(w.offered, Offers(id, messages, Senders(w.SubscribersOf(id), at)), other, tx);
      ServeOther(w.Round(id, offset, file, at, parse), id, offset, file, order[1..], parse, other, tx);
    }
  }

  lemma {:induction false} SoleFormat(subs: seq<Subscriber>, format: string, tx: nat)
    requires Sole(subs, format, tx)
    ensures format in Formats(subs)
  {
    if subs[0].tx != tx {
      SoleFormat(subs[1..], format, tx);
    }
  }

  lemma OpenUnfold(subs: seq<Subscriber>, closed: set<nat>)
    requires subs != []
    ensures Open(subs, closed)
            == if subs[0].tx in closed then Open(subs[1..], closed) else [subs[0]] + Open(subs[1..], closed)
    ensures subs[0].tx !in closed ==> Open(subs, closed) != [] && Open(subs, closed)[1..] == Open(subs[1..], closed)
  {
  }

  lemma {:induction false} AbsentStays(subs: seq<Subscriber>, tx: nat, closed: set<nat>)
    requires Absent(subs, tx)
    ensures Absent(Open(subs, closed), tx)
  {
    if subs == [] {
    } else {
      AbsentStays(subs[1..], tx, closed);
      OpenUnfold(subs, closed);
    }
  }

  lemma {:induction false} SoleStays(subs: seq<Subscriber>, format: string, tx: nat, closed: set<nat>)
    requires Sole(subs, format, tx) && tx !in closed
    ensures Sole(Open(subs, closed), format, tx)
  {
    OpenUnfold(subs, closed);
    if subs[0].tx == tx {
      AbsentStays(subs[1..], tx, closed);
    } else {
      SoleStays(subs[1..], format, tx, closed);
    }
  }

  lemma {:induction false} AbsentAppended(subs: seq<Subscriber>, tx: nat, more: Subscriber)
    requires Absent(subs, tx) && more.tx != tx
    ensures Absent(subs + [more], tx)
  {
    if subs == [] {
    } else {
      assert (subs + [more])[1..] == subs[1..] + [more];
      AbsentAppended(subs[1..], tx, more);
    }
  }

  lemma {:induction false} SoleAppended(subs: seq<Subscriber>, format: string, tx: nat, more: Subscriber)
    requires if more.tx == tx then Absent(subs, tx) && more.format == format else Sole(subs, format, tx)
    ensures Sole(subs + [more], format, tx)
  {
    if subs == [] {
    } else {
      assert (subs + [more])[1..] == subs[1..] + [more];
      if more.tx == tx || subs[0].tx != tx {
        SoleAppended(subs[1..], format, tx, more);
      } else {
        AbsentAppended(subs[1..], tx, more);
      }
    }
  }

  /** After one change, a subscriber with one watch has been offered what its
      own format's read found, once, whatever the other formats and their order;
      the shared offset is that of the format read last. */
  lemma ChangeOffersOnce<M>(w: Watches<M>, id: string, file: string -> Option<Bytes>, order: seq<string>,
                            closed: set<nat>,
                            parse: Parsers<M>, format: string, tx: nat)
    requires Sole(w.SubscribersOf(id), format, tx) && tx !in closed
    requires Enumerates(order, Formats(w.SubscribersOf(id)))
    ensures var after := w.Change(id, file, order, closed, parse);
      && Received(after.offered, id, tx)
         == Received(w.offered, id, tx) + ReadNew(file(format), w.Offset(id), parse(format)).0
      && after.SubscribersOf(id) == Open(w.SubscribersOf(id), closed) && Sole(after.SubscribersOf(id), format, tx)
      && order != []
      && var last := order[|order| - 1];
         after.offsets == w.Store(id, Some(ReadNew(file(last), w.Offset(id), parse(last)).1)).offsets
  {
    SoleFormat(w.SubscribersOf(id), format, tx);
    EnumerationDistinct(order, Formats(w.SubscribersOf(id)));
    ServeSole(w, id, w.Offset(id), file, order, parse, format, tx);
    ServeFrame(w, id, w.Offset(id), file, order, parse);
    SoleStays(w.SubscribersOf(id), format, tx, closed);
  }

  /** A session that leaves the table while watched keeps no offset: every later
      change offers its subscriber the whole transcript again. */
  lemma GoneSessionRereads<M>(w: Watches<M>, id: string, bytes: Bytes, text: string, order: seq<string>,
                              closed: set<nat>,
                              parse: Parsers<M>, format: string, tx: nat)
    requires id !in w.offsets && Sole(w.SubscribersOf(id), format, tx) && tx !in closed
    requires Enumerates(order, Formats(w.SubscribersOf(id))) && Decode(bytes) == Some(text)
    ensures var after := w.Step(Changed(id, _ => Some(bytes), order, closed), parse);
      && Received(after.offered, id, tx) == Received(w.offered, id, tx) + ParseLines(Content(text), parse(format))
      && id !in after.offsets && Sole(after.SubscribersOf(id), format, tx)
  {
    var file: string -> Option<Bytes> := _ => Some(bytes);
    ChangeOffersOnce(w, id, file, order, closed, parse, format, tx);
    assert bytes[0..] == bytes;
    if bytes == [] {
      EncodeDecode(bytes);
      assert text == [];
    }
  }

  lemma OffsetIgnoresFormat<M>(file: Option<Bytes>, offset: nat, p: string -> Option<M>, q: string -> Option<M>)
    ensures ReadNew(file, offset, p).1 == ReadNew(file, offset, q).1
  {
  }

  /** Two changes that find the same transcript offer its new messages once if
      and only if the session is in the table, or there are none. */
  lemma RepeatsExactly<M>(w: Watches<M>, id: string, file: string -> Option<Bytes>, bytes: Bytes, text: string,
                          order: seq<string>, again: seq<string>, closed: set<nat>, parse: Parsers<M>, format: string,
                              tx: nat)
    requires Sole(w.SubscribersOf(id), format, tx) && tx !in closed
    requires Enumerates(order, Formats(w.SubscribersOf(id)))
    requires forall f :: file(f) == Some(bytes)
    requires w.Offset(id) <= |bytes| && Decode(bytes[w.Offset(id)..]) == Some(text)
    requires Enumerates(again, Formats(Open(w.SubscribersOf(id), closed)))
    ensures var next := w.Change(id, file, order, closed, parse);
      var after := next.Change(id, file, again, closed, parse);
      && Received(next.offered, id, tx) == Received(w.offered, id, tx) + ParseLines(Content(text), parse(format))
      && (Received(after.offered, id, tx) == Received(next.offered, id, tx)
          <==> id in w.offsets || ParseLines(Content(text), parse(format)) == [])
  {
    var next := w.Change(id, file, order, closed, parse);
    ChangeOffersOnce(w, id, file, order, closed, parse, format, tx);
    ChangeOffersOnce(next, id, file, again, closed, parse, format, tx);
    FirstRead(bytes, w.Offset(id), parse(format), text);
    OffsetIgnoresFormat(Some(bytes), w.Offset(id), parse(format), parse(order[|order| - 1]));
  }

  /** Each format reads the transcript by itself but all share one offset. When
      the transcript grows between two of these reads, a format that read only
      `u` of it is never offered the rest, and that rest held a line, or made
      another of the last one, unless it is blank and `u` did not end inside a
      line: exactly then the format has all lines of the text. */
  lemma EarlierFormatMissesGrowth<M>(w: Watches<M>, id: string, file: string -> Option<Bytes>,
                                     still: string -> Option<Bytes>,
                                     grown: Bytes, text: string, order: seq<string>, again: seq<string>,
                                         closed: set<nat>,
                                     parse: Parsers<M>, format: string, tx: nat)
    requires id in w.offsets && Sole(w.SubscribersOf(id), format, tx) && tx !in closed
    requires Enumerates(order, Formats(w.SubscribersOf(id)))
    requires order != [] && file(order[|order| - 1]) == Some(grown) && forall f :: still(f) == Some(grown)
    requires file(format).Some? ==> file(format).value <= grown
    requires w.Offset(id) <= |grown| && Decode(grown[w.Offset(id)..]) == Some(text)
    requires Enumerates(again, Formats(Open(w.SubscribersOf(id), closed)))
    ensures var after := w.Change(id, file, order, closed, parse).Change(id, still, again, closed, parse);
      var u := Seen(file(format), w.Offset(id));
      && u <= text
      && Received(after.offered, id, tx) == Received(w.offered, id, tx) + ParseLines(Content(u), parse(format))
      && (Content(u) == Content(text) <==> Blank(text[|u|..]) && HarmlessCut(u, text[|u|..]))
  {
    var next := w.Change(id, file, order, closed, parse);
    ChangeOffersOnce(w, id, file, order, closed, parse, format, tx);
    ChangeOffersOnce(next, id, still, again, closed, parse, format, tx);
    FirstRead(grown, w.Offset(id), parse(order[|order| - 1]), text);
    assert next.Offset(id) == |grown|;
    ReadSeen(file(format), w.Offset(id), parse(format));
    var u := Seen(file(format), w.Offset(id));
    if file(format).Some? {
      SeenBegins(file(format).value, grown, w.Offset(id), text);
    }
    assert text == u + text[|u|..];
    NothingFollows(u, text[|u|..]);
  }

  // ------------------------------------------------------------ whole runs

  function ReadBy(input: Input, id: string): seq<Bytes> {
    if input.Changed? && input.id == id && input.file("").Some? then [input.file("").value] else []
  }

  /** The transcript contents that successive changes of session `id` find. */
  function Reads(inputs: seq<Input>, id: string): seq<Bytes> {
    if inputs == [] then [] else ReadBy(inputs[0], id) + Reads(inputs[1..], id)
  }

  /** The input is no second watch that moves the offset of `id`, does not end
      the watch, the session or `tx`, and a change of `id` finds the same for
      every format, a transcript or none. */
  ghost predicate Leaves<M>(w: Watches<M>, input: Input, id: string, tx: nat) {
    match input
    case Watched(raw, _, other, size) =>
      w.Canonical(raw) == id ==> other != tx && (id in w.paths ==> id in w.offsets && w.offsets[id] == Some(size))
    case Unwatched(raw) => w.Canonical(raw) != id
    case Changed(key, file, order, closed) =>
      && tx !in closed
      && (key == id ==> Enumerates(order, Formats(w.SubscribersOf(id))) && forall f: string :: file(f) == file(""))
    case Known(_, _) => true
    case Gone(key) => key != id
  }

  ghost predicate Undisturbed<M>(w: Watches<M>, inputs: seq<Input>, id: string, tx: nat, parse: Parsers<M>)
    decreases |inputs|
  {
    inputs == [] || (Leaves(w, inputs[0], id, tx) && Undisturbed(w.Step(inputs[0], parse), inputs[1..], id, tx, parse))
  }

  /** `tx` has one watch, on session `id`, and the session knows its offset. */
  predicate Watching<M>(w: Watches<M>, id: string, format: string, tx: nat) {
    id in w.offsets && w.offsets[id].Some? && Sole(w.SubscribersOf(id), format, tx)
  }

  /** What one input does for a watching subscriber: it is offered what one
      read of its own finds. */
  ghost predicate Served<M>(w: Watches<M>, after: Watches<M>, id: string, format: string, tx: nat, parse: Parsers<M>,
                            files: seq<Bytes>) {
    && Watching(after, id, format, tx)
    && Received(after.offered, id, tx) == Received(w.offered, id, tx) + ReadAll(files, w.Offset(id), parse(format)).0
    && after.Offset(id) == ReadAll(files, w.Offset(id), parse(format)).1
  }

  lemma OneRead<M>(file: Bytes, offset: nat, parse: string -> Option<M>)
    ensures ReadAll([file], offset, parse) == ReadNew(Some(file), offset, parse)
  {
    var (messages, next) := ReadNew(Some(file), offset, parse);
    var files: seq<Bytes> := [file];
    assert files[1..] == [] && ReadAll(files[1..], next, parse) == ([], next);
    assert messages + [] == messages;
  }

  lemma ChangeServes<M>(w: Watches<M>, input: Input, id: string, format: string, tx: nat, parse: Parsers<M>)
    requires Watching(w, id, format, tx) && Leaves(w, input, id, tx) && input.Changed? && input.id == id
    ensures Served(w, w.Step(input, parse), id, format, tx, parse, ReadBy(input, id))
  {
    var file, order := input.file, input.order;
    ChangeOffersOnce(w, id, file, order, input.closed, parse, format, tx);
    var last := order[|order| - 1];
    assert file(format) == file("") && file(last) == file("");
    OffsetIgnoresFormat(file(""), w.Offset(id), parse(format), parse(last));
    if file("").Some? {
      OneRead(file("").value, w.Offset(id), parse(format));
    }
  }

  lemma ChangeElsewhere<M>(w: Watches<M>, input: Input, id: string, format: string, tx: nat, parse: Parsers<M>)
    requires Watching(w, id, format, tx) && Leaves(w, input, id, tx) && input.Changed? && input.id != id
    ensures Served(w, w.Step(input, parse), id, format, tx, parse, [])
  {
    var key, order := input.id, input.order;
    SoleStays(w.SubscribersOf(id), format, tx, input.closed);
    if order != [] {
      ServeFrame(w, key, w.Offset(key), input.file, order, parse);
    }
    ServeOther(w, key, w.Offset(key), input.file, order, parse, id, tx);
  }

  lemma StepOffers<M>(w: Watches<M>, input: Input, id: string, format: string, tx: nat, parse: Parsers<M>)
    requires Watching(w, id, format, tx) && Leaves(w, input, id, tx)
    ensures Served(w, w.Step(input, parse), id, format, tx, parse, ReadBy(input, id))
  {
    match input
    case Watched(raw, other, _, size) =>
      if w.Canonical(raw) == id {
        SoleAppended(w.SubscribersOf(id), format, tx, Subscriber(other, input.tx));
      }
    case Changed(key, file, order, closed) =>
      if key == id {
        ChangeServes(w, input, id, format, tx, parse);
      } else {
        ChangeElsewhere(w, input, id, format, tx, parse);
      }
    case _ =>
  }

  lemma {:induction false} ReadAllConcat<M>(a: seq<Bytes>, b: seq<Bytes>, offset: nat, parse: string -> Option<M>)
    ensures var (first, middle) := ReadAll(a, offset, parse);
      var (second, last) := ReadAll(b, middle, parse);
      ReadAll(a + b, offset, parse) == (first + second, last)
    decreases |a|
  {
    if a == [] {
      assert a + b == b;
      assert [] + ReadAll(b, offset, parse).0 == ReadAll(b, offset, parse).0;
    } else {
      var (head, next) := ReadNew(Some(a[0]), offset, parse);
      assert (a + b)[1..] == a[1..] + b;
      ReadAllConcat(a[1..], b, next, parse);
      var (first, middle) := ReadAll(a[1..], next, parse);
      ConcatAssociative(head, first, ReadAll(b, middle, parse).0);
    }
  }

  lemma ServedTwice<M>(w: Watches<M>, mid: Watches<M>, after: Watches<M>, id: string, format: string, tx: nat,
                       parse: Parsers<M>,
                        a: seq<Bytes>, b: seq<Bytes>)
    requires Served(w, mid, id, format, tx, parse, a) && Served(mid, after, id, format, tx, parse, b)
    ensures Served(w, after, id, format, tx, parse, a + b)
  {
    ReadAllConcat(a, b, w.Offset(id), parse(format));
    ConcatAssociative(Received(w.offered, id, tx), ReadAll(a, w.Offset(id), parse(format)).0,
                      ReadAll(b, mid.Offset(id), parse(format)).0);
  }

  lemma {:induction false} RunOffers<M>(w: Watches<M>, inputs: seq<Input>, id: string, format: string, tx: nat,
                                        parse: Parsers<M>)
    requires Watching(w, id, format, tx) && Undisturbed(w, inputs, id, tx, parse)
    ensures Served(w, w.Run(inputs, parse), id, format, tx, parse, Reads(inputs, id))
    decreases |inputs|
  {
    if inputs == [] {
    } else {
      var next := w.Step(inputs[0], parse);
      StepOffers(w, inputs[0], id, format, tx, parse);
      RunOffers(next, inputs[1..], id, format, tx, parse);
      ServedTwice(w, next, next.Run(inputs[1..], parse), id, format, tx, parse, ReadBy(inputs[0], id),
          Reads(inputs[1..], id));
    }
  }

  lemma WatchStarts<M>(w: Watches<M>, raw: string, format: string, tx: nat, size: nat, parse: Parsers<M>)
    requires var id := w.Canonical(raw); id in w.offsets && id in w.paths && Absent(w.SubscribersOf(id), tx)
    ensures var id, after := w.Canonical(raw), w.Step(Watched(raw, format, tx, size), parse);
      Watching(after, id, format, tx) && after.Offset(id) == size && after.offered == w.offered
  {
    SoleAppended(w.SubscribersOf(w.Canonical(raw)), format, tx, Subscriber(format, tx));
  }

  /** A subscriber that starts watching when the transcript holds `size` bytes
      is offered, over every undisturbed run, what the successive reads hand to
      its parser; these are the lines of the text appended since, once each and
      in order, if and only if no read stops harmfully. */
  lemma WatcherGetsExactly<M>(w: Watches<M>, raw: string, format: string, tx: nat, size: nat, inputs: seq<Input>,
                              parse: Parsers<M>, text: string)
    requires var id := w.Canonical(raw);
      && id in w.offsets && id in w.paths && Absent(w.SubscribersOf(id), tx)
      && Undisturbed(w.Step(Watched(raw, format, tx, size), parse), inputs, id, tx, parse)
      && var files := Reads(inputs, id);
         && files != [] && Growing(files) && size <= |files[|files| - 1]|
         && Decode(files[|files| - 1][size..]) == Some(text)
    ensures var id := w.Canonical(raw);
      var files := Reads(inputs, id);
      && Received(w.Run([Watched(raw, format, tx, size)] + inputs, parse).offered, id, tx)
         == Received(w.offered, id, tx) + ParseLines(LinesRead(files, size), parse(format))
      && (LinesRead(files, size) == Content(text) <==> HarmlessReads(files, size, text))
  {
    var id, first := w.Canonical(raw), Watched(raw, format, tx, size);
    WatchStarts(w, raw, format, tx, size, parse);
    assert ([first] + inputs)[1..] == inputs;
    RunOffers(w.Step(first, parse), inputs, id, format, tx, parse);
    ReadAllLines(Reads(inputs, id), size, parse(format));
    IncrementalExactly(Reads(inputs, id), size, text);
  }

  /** So reads that find the transcript at line ends offer it exactly the
      messages of the appended text. */
  lemma WatcherGetsAppendedText<M>(w: Watches<M>, raw: string, format: string, tx: nat, size: nat, inputs: seq<Input>,
                                   parse: Parsers<M>, text: string)
    requires var id := w.Canonical(raw);
      && id in w.offsets && id in w.paths && Absent(w.SubscribersOf(id), tx)
      && Undisturbed(w.Step(Watched(raw, format, tx, size), parse), inputs, id, tx, parse)
      && var files := Reads(inputs, id);
         files != [] && GrowsByLines(files, size) && Decode(files[|files| - 1][size..]) == Some(text)
    ensures var id := w.Canonical(raw);
      Received(w.Run([Watched(raw, format, tx, size)] + inputs, parse).offered, id, tx)
      == Received(w.offered, id, tx) + ParseLines(Content(text), parse(format))
  {
    var files := Reads(inputs, w.Canonical(raw));
    assert AtLineEnd(files[|files| - 1], size);
    AppendsGrow(files);
    LineEndsAreHarmless(files, size, text);
    WatcherGetsExactly(w, raw, format, tx, size, inputs, parse, text);
  }

  // ------------------------------------------------------------ silence

  /** Nobody watches session `id` as `tx`. */
  predicate Silent<M>(w: Watches<M>, id: string, tx: nat) {
    Absent(w.SubscribersOf(id), tx)
  }

  lemma {:induction false} RoundToAbsent<M>(id: string, messages: seq<M>, subs: seq<Subscriber>, at: string, tx: nat)
    requires Absent(subs, tx)
    ensures Received(Offers(id, messages, Senders(subs, at)), id, tx) == []
  {
    if messages == [] {
    } else {
      ToAbsent(id, messages[0], subs, at, tx);
      RoundToAbsent(id, messages[1..], subs, at, tx);
      ReceivedConcat(ToAll(id, messages[0], Senders(subs, at)), Offers(id, messages[1..], Senders(subs, at)), id, tx);
    }
  }

  lemma {:induction false} AbsentHears<M>(w: Watches<M>, id: string, offset: nat, file: string -> Option<Bytes>,
                                          order: seq<string>, parse: Parsers<M>, tx: nat)
    requires Silent(w, id, tx)
    ensures Received(w.Serve(id, offset, file, order, parse).offered, id, tx) == Received(w.offered, id, tx)
    decreases |order|
  {
    if order == [] {
    } else {
      var at := order[0];
      var messages := ReadNew(file(at), offset, parse(at)).0;
      RoundToAbsent(id, messages, w.SubscribersOf(id), at, tx);
      ReceivedConcat(w.offered, Offers(id, messages, Senders(w.SubscribersOf(id), at)), id, tx);
      AbsentHears(w.Round(id, offset, file, at, parse), id, offset, file, order[1..], parse, tx);
    }
  }

  /** The input is no watch of session `id` by `tx`. */
  ghost predicate NoWatchBy<M>(w: Watches<M>, input: Input, id: string, tx: nat) {
    input.Watched? ==> w.Canonical(input.id) != id || input.tx != tx
  }

  lemma StepSilent<M>(w: Watches<M>, input: Input, id: string, tx: nat, parse: Parsers<M>)
    requires Silent(w, id, tx) && NoWatchBy(w, input, id, tx)
    ensures Silent(w.Step(input, parse), id, tx)
    ensures Received(w.Step(input, parse).offered, id, tx) == Received(w.offered, id, tx)
  {
    match input
    case Watched(raw, format, other, _) =>
      if w.Canonical(raw) == id {
        AbsentAppended(w.SubscribersOf(id), tx, Subscriber(format, other));
      }
    case Changed(key, file, order, closed) =>
      AbsentStays(w.SubscribersOf(id), tx, closed);
      if order != [] {
        ServeFrame(w, key, w.Offset(key), file, order, parse);
      }
      if key == id {
        AbsentHears(w, id, w.Offset(id), file, order, parse, tx);
      } else {
        ServeOther(w, key, w.Offset(key), file, order, parse, id, tx);
      }
    case _ =>
  }

  ghost predicate NeverWatchedBy<M>(w: Watches<M>, inputs: seq<Input>, id: string, tx: nat, parse: Parsers<M>)
    decreases |inputs|
  {
    inputs == [] || (NoWatchBy(w, inputs[0], id, tx) && NeverWatchedBy(w.Step(inputs[0], parse), inputs[1..], id, tx, parse))
  }

  lemma {:induction false} RunSilent<M>(w: Watches<M>, inputs: seq<Input>, id: string, tx: nat, parse: Parsers<M>)
    requires Silent(w, id, tx) && NeverWatchedBy(w, inputs, id, tx, parse)
    ensures Received(w.Run(inputs, parse).offered, id, tx) == Received(w.offered, id, tx)
    decreases |inputs|
  {
    if inputs == [] {
    } else {
      StepSilent(w, inputs[0], id, tx, parse);
      RunSilent(w.Step(inputs[0], parse), inputs[1..], id, tx, parse);
    }
  }

  /** After the session is unwatched nobody is offered anything of it until they
      watch it again, over every run. */
  lemma UnwatchedIsSilent<M>(w: Watches<M>, raw: string, inputs: seq<Input>, tx: nat, parse: Parsers<M>)
    requires NeverWatchedBy(w.Step(Unwatched(raw), parse), inputs, w.Canonical(raw), tx, parse)
    ensures var id, next := w.Canonical(raw), w.Step(Unwatched(raw), parse);
      Received(next.Run(inputs, parse).offered, id, tx) == Received(w.offered, id, tx)
  {
    RunSilent(w.Step(Unwatched(raw), parse), inputs, w.Canonical(raw), tx, parse);
  }

  lemma {:induction false} ClosedIsAbsent(subs: seq<Subscriber>, closed: set<nat>, tx: nat)
    requires tx in closed
    ensures Absent(Open(subs, closed), tx)
  {
    if subs == [] {
    } else {
      ClosedIsAbsent(subs[1..], closed, tx);
      OpenUnfold(subs, closed);
    }
  }

  /** Nor is a subscriber found closed at a change, of whatever session. */
  lemma ClosedIsSilent<M>(w: Watches<M>, change: Input, inputs: seq<Input>, id: string, tx: nat, parse: Parsers<M>)
    requires change.Changed? && tx in change.closed
    requires NeverWatchedBy(w.Step(change, parse), inputs, id, tx, parse)
    ensures var next := w.Step(change, parse);
      Received(next.Run(inputs, parse).offered, id, tx) == Received(next.offered, id, tx)
  {
    if change.order != [] {
      ServeFrame(w, change.id, w.Offset(change.id), change.file, change.order, parse);
    }
    ClosedIsAbsent(w.SubscribersOf(id), change.closed, tx);
    RunSilent(w.Step(change, parse), inputs, id, tx, parse);
  }

  // ------------------------------------------------------------ runs that go wrong

  function NoWatches<M>(): Watches<M> {
    Watches(map[], {}, map[], [])
  }

  lemma RunTwo<M>(w: Watches<M>, first: Input, second: Input, parse: Parsers<M>)
    ensures w.Run([first, second], parse) == w.Step(first, parse).Step(second, parse)
  {
    var inputs := [first, second];
    assert inputs[1..] == [second] && [second][1..] == [];
    assert w.Step(first, parse).Run([second], parse) == w.Step(first, parse).Step(second, parse).Run([], parse);
  }

  /** A session appears and `tx` watches it. */
  lemma OneWatch<M>(parse: Parsers<M>, id: string, format: string, tx: nat)
    ensures NoWatches().Run([Known(id, true), Watched(id, format, tx, 0)], parse)
            == Watches(map[id := Some(0)], {id}, map[id := [Subscriber(format, tx)]], [])
  {
    var first, second := Known(id, true), Watched(id, format, tx, 0);
    var w: Watches<M> := NoWatches();
    RunTwo(w, first, second, parse);
    var known := w.Step(first, parse);
    assert known == Watches(map[id := None], {id}, map[], []) && known.Canonical(id) == id;
    assert [] + [Subscriber(format, tx)] == [Subscriber(format, tx)];
  }

  lemma {:induction false} NoneClosed(subs: seq<Subscriber>)
    ensures Open(subs, {}) == subs
  {
    if subs == [] {
    } else {
      NoneClosed(subs[1..]);
      assert subs == [subs[0]] + subs[1..];
    }
  }

  lemma ChangeKeepsAll<M>(w: Watches<M>, id: string, file: string -> Option<Bytes>, order: seq<string>,
                          parse: Parsers<M>)
    requires order != []
    ensures w.Change(id, file, order, {}, parse).SubscribersOf(id) == w.SubscribersOf(id)
  {
    NoneClosed(w.SubscribersOf(id));
    ServeFrame(w, id, w.Offset(id), file, order, parse);
  }

  lemma Alone(format: string, tx: nat)
    ensures Formats([Subscriber(format, tx)]) == {format} && Sole([Subscriber(format, tx)], format, tx)
            && Enumerates([format], {format})
  {
    var subs := [Subscriber(format, tx)];
    assert subs[1..] == [];
  }

  lemma ReadTwiceWhileGone<M>(w: Watches<M>, id: string, file: string -> Option<Bytes>, bytes: Bytes, text: string,
                              order: seq<string>,
                              parse: Parsers<M>, format: string, tx: nat)
    requires id !in w.offsets && Sole(w.SubscribersOf(id), format, tx)
    requires Enumerates(order, Formats(w.SubscribersOf(id)))
    requires (forall f :: file(f) == Some(bytes)) && Decode(bytes) == Some(text)
    ensures var whole := ParseLines(Content(text), parse(format));
      Received(w.Change(id, file, order, {}, parse).Change(id, file, order, {}, parse).offered, id, tx)
      == Received(w.offered, id, tx) + whole + whole
  {
    var next := w.Change(id, file, order, {}, parse);
    assert bytes[0..] == bytes;
    FirstRead(bytes, 0, parse(format), text);
    ChangeOffersOnce(w, id, file, order, {}, parse, format, tx);
    ChangeKeepsAll(w, id, file, order, parse);
    ChangeOffersOnce(next, id, file, order, {}, parse, format, tx);
  }

  lemma GoneState<M>(parse: Parsers<M>, id: string, format: string, tx: nat)
    ensures NoWatches().Run([Known(id, true), Watched(id, format, tx, 0)], parse).Forget(id)
            == Watches(map[], {}, map[id := [Subscriber(format, tx)]], [])
  {
    OneWatch(parse, id, format, tx);
  }

  /** From the empty table: a watched session ends, and each of two changes
      offers the whole transcript. */
  lemma GoneSessionRun<M>(parse: Parsers<M>, id: string, format: string, tx: nat, file: string -> Option<Bytes>,
                          bytes: Bytes, text: string)
    requires (forall f :: file(f) == Some(bytes)) && Decode(bytes) == Some(text)
    ensures var w := NoWatches().Run([Known(id, true), Watched(id, format, tx, 0)], parse).Forget(id);
      var whole := ParseLines(Content(text), parse(format));
      Received(w.Change(id, file, [format], {}, parse).Change(id, file, [format], {}, parse).offered, id, tx)
          == whole + whole
  {
    GoneState(parse, id, format, tx);
    Alone(format, tx);
    ReadTwiceWhileGone(Watches(map[], {}, map[id := [Subscriber(format, tx)]], []), id, file, bytes, text, [format],
        parse, format, tx);
  }

  lemma OneThenOther(format: string, tx: nat, other: string, tx': nat)
    requires format != other && tx != tx'
    ensures var subs := [Subscriber(format, tx), Subscriber(other, tx')];
      Sole(subs, format, tx) && Formats(subs) == {format, other} && Enumerates([format, other], {format, other})
  {
    var subs := [Subscriber(format, tx), Subscriber(other, tx')];
    var rest := [Subscriber(other, tx')];
    assert subs[1..] == rest && rest[1..] == [];
    assert Formats(rest) == {other} + Formats(rest[1..]) && Formats(subs) == {format} + Formats(subs[1..]);
    assert Absent(rest[1..], tx) && Absent(rest, tx);
    var order := [format, other];
    assert order[0] == format && order[1] == other;
  }

  lemma WholeSeen(s: string)
    ensures Decode(Encode(s)[0..]) == Some(s) && Seen(Some(Encode(s)), 0) == s
  {
    DecodeEncode(s);
    assert Encode(s)[0..] == Encode(s);
    if s != [] {
      assert Encode(s) == EncodeChar(s[0]) + Encode(s[1..]);
    }
  }

  lemma GrowthIsLost<M>(w: Watches<M>, id: string, file: string -> Option<Bytes>, still: string -> Option<Bytes>,
                        u: string, v: string,
                        order: seq<string>, parse: Parsers<M>, format: string, tx: nat)
    requires id in w.offsets && w.offsets[id] == Some(0) && Sole(w.SubscribersOf(id), format, tx)
    requires order != [] && Enumerates(order, Formats(w.SubscribersOf(id)))
    requires file(format) == Some(Encode(u)) && file(order[|order| - 1]) == Some(Encode(u + v))
            && forall f :: still(f) == Some(Encode(u + v))
    requires EndsLine(u) && !Blank(v)
    ensures Received(w.Change(id, file, order, {}, parse).Change(id, still, order, {}, parse).offered, id, tx)
            == Received(w.offered, id, tx) + ParseLines(Content(u), parse(format))
    ensures Content(u) != Content(u + v)
  {
    NoneClosed(w.SubscribersOf(id));
    WholeSeen(u);
    WholeSeen(u + v);
    EncodeConcat(u, v);
    EarlierFormatMissesGrowth(w, id, file, still, Encode(u + v), u + v, order, order, {}, parse, format, tx);
    assert (u + v)[|u|..] == v;
    NothingFollows(u, v);
  }

  /** From the empty table: the transcript grows from `u` to `u + v` between the
      reads for two formats, and the lines of `v` never reach the earlier one. */
  lemma GrowthIsLostRun<M>(parse: Parsers<M>, id: string, format: string, tx: nat, other: string, tx': nat,
                           u: string, v: string, file: string -> Option<Bytes>, still: string -> Option<Bytes>)
    requires format != other && tx != tx' && EndsLine(u) && !Blank(v)
    requires file(format) == Some(Encode(u)) && file(other) == Some(Encode(u + v))
            && forall f :: still(f) == Some(Encode(u + v))
    ensures var w := NoWatches().Run([Known(id, true), Watched(id, format, tx, 0)], parse).Watch(id, other, tx', 0);
      Received(w.Change(id, file, [format, other], {}, parse).Change(id, still, [format, other], {}, parse).offered,
          id, tx)
      == ParseLines(Content(u), parse(format))
    ensures Content(u) != Content(u + v)
  {
    OneWatch(parse, id, format, tx);
    OneThenOther(format, tx, other, tx');
    var w := NoWatches().Run([Known(id, true), Watched(id, format, tx, 0)], parse).Watch(id, other, tx', 0);
    assert [Subscriber(format, tx)] + [Subscriber(other, tx')] == [Subscriber(format, tx), Subscriber(other, tx')];
    GrowthIsLost(w, id, file, still, u, v, [format, other], parse, format, tx);
  }

  // ------------------------------------------------------------ the arms

  function SendersIn(groups: map<string, seq<nat>>, f: string): seq<nat> {
    if f in groups then groups[f] else []
  }

  /** One more subscriber under its format. */
  function Regrouped(groups: map<string, seq<nat>>, s: Subscriber): map<string, seq<nat>> {
    groups[s.format := SendersIn(groups, s.format) + [s.tx]]
  }

  ghost predicate Grouped(subs: seq<Subscriber>, groups: map<string, seq<nat>>) {
    groups.Keys == Formats(subs) && forall f :: f in groups ==> groups[f] == Senders(subs, f)
  }

  lemma {:induction false} GroupsSnoc(subs: seq<Subscriber>, s: Subscriber)
    ensures Formats(subs + [s]) == Formats(subs) + {s.format}
    ensures forall f :: Senders(subs + [s], f) == Senders(subs, f) + if f == s.format then [s.tx] else []
    ensures s.format !in Formats(subs) ==> Senders(subs, s.format) == []
  {
    if subs == [] {
    } else {
      assert (subs + [s])[1..] == subs[1..] + [s];
      GroupsSnoc(subs[1..], s);
    }
  }

  lemma GroupOne(subs: seq<Subscriber>, s: Subscriber, groups: map<string, seq<nat>>)
    requires Grouped(subs, groups)
    ensures Grouped(subs + [s], Regrouped(groups, s))
  {
    GroupsSnoc(subs, s);
    var more := Regrouped(groups, s);
    forall f | f in more ensures more[f] == Senders(subs + [s], f) {
      assert Senders(subs + [s], f) == Senders(subs, f) + if f == s.format then [s.tx] else [];
      assert Senders(subs, f) + [] == Senders(subs, f);
    }
  }

  method ByFormat(subs: seq<Subscriber>) returns (groups: map<string, seq<nat>>)
    ensures Grouped(subs, groups)
  {
    groups := map[];
    for i := 0 to |subs|
      invariant Grouped(subs[..i], groups)
    {
      GroupOne(subs[..i], subs[i], groups);
      assert subs[..i + 1] == subs[..i] + [subs[i]];
      groups := Regrouped(groups, subs[i]);
    }
    assert subs[..|subs|] == subs;
  }

  lemma {:induction false} ToAllSnoc<M>(id: string, message: M, senders: seq<nat>, tx: nat)
    ensures ToAll(id, message, senders + [tx]) == ToAll(id, message, senders) + [Offer(tx, id, message)]
  {
    if senders == [] {
    } else {
      assert (senders + [tx])[1..] == senders[1..] + [tx];
      ToAllSnoc(id, message, senders[1..], tx);
    }
  }

  method OfferAll<M>(id: string, messages: seq<M>, senders: seq<nat>) returns (offers: seq<Offer<M>>)
    ensures offers == Offers(id, messages, senders)
  {
    offers := [];
    for i := 0 to |messages|
      invariant offers + Offers(id, messages[i..], senders) == Offers(id, messages, senders)
    {
      var round: seq<Offer<M>> := [];
      for j := 0 to |senders|
        invariant round == ToAll(id, messages[i], senders[..j])
      {
        ToAllSnoc(id, messages[i], senders[..j], senders[j]);
        assert senders[..j + 1] == senders[..j] + [senders[j]];
        round := round + [Offer(senders[j], id, messages[i])];
      }
      assert senders[..|senders|] == senders && messages[i..][1..] == messages[i + 1..];
      ConcatAssociative(offers, round, Offers(id, messages[i + 1..], senders));
      offers := offers + round;
    }
  }

  class SessionWatches<M> {
    const parse: Parsers<M>
    var offsets: map<string, Option<nat>>
    var paths: set<string>
    var subscribers: map<string, seq<Subscriber>>
    ghost var offered: seq<Offer<M>>

    ghost function View(): Watches<M>
      reads this
    {
      Watches(offsets, paths, subscribers, offered)
    }

    constructor (parse: Parsers<M>)
      ensures this.parse == parse && View() == NoWatches()
    {
      this.parse, offsets, paths, subscribers, offered := parse, map[], {}, map[], [];
    }

    method WatchSession(id: string, format: string, tx: nat, size: nat)
      modifies this
      ensures View() == old(View()).Step(Watched(id, format, tx, size), parse)
    {
      var found := Daemon.FindKey(offsets.Keys, id);
      var key := match found case Some(k) => k case None => id;
      if key in offsets && key in paths {
        offsets := offsets[key := Some(size)];
      }
      subscribers := subscribers[key := (if key in subscribers then subscribers[key] else []) + [Subscriber(format, tx)]];
    }

    method UnwatchSession(id: string)
      modifies this
      ensures View() == old(View()).Step(Unwatched(id), parse)
    {
      var found := Daemon.FindKey(offsets.Keys, id);
      var key := match found case Some(k) => k case None => id;
      subscribers := subscribers - {key};
      if key in offsets {
        offsets := offsets[key := None];
      }
    }

    /** One format's read, its offset, and its offers. */
    method ServeFormat(id: string, offset: nat, file: string -> Option<Bytes>, format: string, senders: seq<nat>)
      requires id in subscribers && senders == Senders(subscribers[id], format)
      modifies this
      ensures View() == old(View()).Round(id, offset, file, format, parse)
    {
      var messages, next := ReadNewMessages(file(format), offset, parse(format));
      if id in offsets {
        offsets := offsets[id := Some(next)];
      }
      var offers := OfferAll(id, messages, senders);
      offered := offered + offers;
    }

    method ServeAll(id: string, file: string -> Option<Bytes>, order: seq<string>)
      requires id in subscribers && Enumerates(order, Formats(subscribers[id]))
      modifies this
      ensures View() == old(View()).Serve(id, old(View()).Offset(id), file, order, parse)
    {
      var offset := if id in offsets && offsets[id].Some? then offsets[id].value else 0;
      var groups := ByFormat(subscribers[id]);
      for i := 0 to |order|
        invariant subscribers == old(subscribers)
        invariant View().Serve(id, offset, file, order[i..], parse) == old(View()).Serve(id, offset, file, order, parse)
      {
        assert order[i] in order;
        assert order[i..][0] == order[i] && order[i..][1..] == order[i + 1..];
        ServeFormat(id, offset, file, order[i], groups[order[i]]);
      }
    }

    method FileChanged(id: string, file: string -> Option<Bytes>, order: seq<string>, closed: set<nat>)
      requires id in subscribers ==> Enumerates(order, Formats(subscribers[id]))
      modifies this
      ensures View() == old(View()).Step(Changed(id, file, order, closed), parse)
    {
      if id in subscribers && subscribers[id] != [] {
        ServeAll(id, file, order);
      }
      subscribers := map key | key in subscribers
          && Open(subscribers[key], closed) != [] :: Open(subscribers[key], closed);
    }
  }
}
