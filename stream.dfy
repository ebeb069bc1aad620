/**
 * The live price stream service: a symbol table from exchange symbols to coin ids, a set of
 * subscribers, and a socket that schedules one reconnect when it closes.
 *
 * The transport is abstract. Sockets are numbered in the order they are opened and each one
 * remembers the stream path it was opened on and its ready state. A message arriving, a socket's
 * close event and the reconnect timer firing are steps the environment takes by calling
 * `OnMessage`, `OnClose` and `OnTimer`. Callbacks are opaque identities and every delivery is
 * appended to a log.
 */
module PriceStream {
  import opened Wrappers

  // ---------------------------------------------------------------------------
  // Exchange symbols
  // ---------------------------------------------------------------------------

  /** A coin as handed to `init`: its id and its ticker symbol. */
  datatype Coin = Coin(id: string, symbol: string)

  /** ASCII lower-casing of one character. */
  function LowerChar(ch: char): char {
    if 'A' <= ch <= 'Z' then (ch as int + 32) as char else ch
  }

  /** `toLowerCase()`, for ASCII letters. */
  function Lower(s: string): string {
    seq(|s|, i requires 0 <= i < |s| => LowerChar(s[i]))
  }

  predicate IsLower(s: string) {
    forall i :: 0 <= i < |s| ==> !('A' <= s[i] <= 'Z')
  }

  /** The stream name of a coin on the exchange: its lower-cased symbol against USDT. */
  function ExchangeSymbol(c: Coin): string {
    Lower(c.symbol) + "usdt"
  }

  lemma LowerMakesLower(s: string)
    ensures |Lower(s)| == |s| && IsLower(Lower(s))
    ensures forall i :: 0 <= i < |s| && !('A' <= s[i] <= 'Z') ==> Lower(s)[i] == s[i]
  {
  }

  lemma LowerConcat(a: string, b: string)
    ensures Lower(a + b) == Lower(a) + Lower(b)
  {
  }

  /** ASCII upper-casing of one character. */
  function UpperChar(ch: char): char {
    if 'a' <= ch <= 'z' then (ch as int - 32) as char else ch
  }

  /** `toUpperCase()`, for ASCII letters: how the exchange spells a symbol. */
  function Upper(s: string): string {
    seq(|s|, i requires 0 <= i < |s| => UpperChar(s[i]))
  }

  /** Lower-casing forgets the case a string was written in. */
  lemma LowerOfUpper(s: string)
    ensures Lower(Upper(s)) == Lower(s)
  {
    forall i | 0 <= i < |s| ensures Lower(Upper(s))[i] == Lower(s)[i] {
      assert Upper(s)[i] == UpperChar(s[i]);
    }
  }

  /** The exchange sends a coin's symbol upper-case against USDT (`btc` arrives as `BTCUSDT`);
      lower-cased, that is exactly the key built from the coin, and every key is lower case. */
  lemma ExchangeSymbolOfTicker(c: Coin)
    ensures Lower(Upper(c.symbol) + "USDT") == ExchangeSymbol(c)
    ensures Lower(c.symbol + "USDT") == ExchangeSymbol(c)
    ensures IsLower(ExchangeSymbol(c))
  {
    LowerConcat(Upper(c.symbol), "USDT");
    LowerConcat(c.symbol, "USDT");
    LowerOfUpper(c.symbol);
    assert Lower("USDT") == "usdt";
    LowerMakesLower(c.symbol);
  }

  // ---------------------------------------------------------------------------
  // The symbol table: a Map, whose keys keep their insertion order
  // ---------------------------------------------------------------------------

  datatype SymbolTable = SymbolTable(keys: seq<string>, ids: map<string, string>)

  predicate Distinct<T(==)>(s: seq<T>) {
    forall i, j :: 0 <= i < j < |s| ==> s[i] != s[j]
  }

  predicate TableValid(t: SymbolTable) {
    Distinct(t.keys) && t.ids.Keys == set k | k in t.keys
  }

  function EmptyTable(): (t: SymbolTable)
    ensures TableValid(t) && t.keys == [] && t.ids == map[]
  {
    SymbolTable([], map[])
  }

  /** `Map.set`: a new key goes last, an existing key keeps its place and takes the new value. */
  function Put(t: SymbolTable, key: string, id: string): (r: SymbolTable)
    requires TableValid(t)
    ensures TableValid(r)
  {
    if key in t.ids then t.(ids := t.ids[key := id])
    else SymbolTable(t.keys + [key], t.ids[key := id])
  }

  lemma PutLookup(t: SymbolTable, key: string, id: string)
    requires TableValid(t)
    ensures key in Put(t, key, id).ids && Put(t, key, id).ids[key] == id
    ensures forall k :: k != key ==> (k in Put(t, key, id).ids <==> k in t.ids)
    ensures forall k :: k != key && k in t.ids ==> Put(t, key, id).ids[k] == t.ids[k]
    ensures t.keys <= Put(t, key, id).keys
    ensures |Put(t, key, id).keys| == |t.keys| + (if key in t.ids then 0 else 1)
  {
  }

  /** The table after `init(cryptos)`: each coin in turn sets its exchange symbol to its id. */
  function Register(t: SymbolTable, cs: seq<Coin>): (r: SymbolTable)
    requires TableValid(t)
    ensures TableValid(r)
  {
    if cs == [] then t
    else Put(Register(t, cs[..|cs| - 1]), ExchangeSymbol(cs[|cs| - 1]), cs[|cs| - 1].id)
  }

  /** `key` is the exchange symbol of `cs[i]` and of no later coin. */
  predicate LastWith(cs: seq<Coin>, key: string, i: int) {
    0 <= i < |cs| && ExchangeSymbol(cs[i]) == key &&
    forall j :: i < j < |cs| ==> ExchangeSymbol(cs[j]) != key
  }

  /** After `init`, a key is present iff it was present before or some coin has it, and the
      keys already present keep their order. */
  lemma {:induction false} RegisterKeys(t: SymbolTable, cs: seq<Coin>, key: string)
    requires TableValid(t)
    ensures key in Register(t, cs).ids <==>
      key in t.ids || exists i :: 0 <= i < |cs| && ExchangeSymbol(cs[i]) == key
    ensures t.keys <= Register(t, cs).keys
    decreases |cs|
  {
    if cs != [] {
      RegisterKeys(t, cs[..|cs| - 1], key);
      PutLookup(Register(t, cs[..|cs| - 1]), ExchangeSymbol(cs[|cs| - 1]), cs[|cs| - 1].id);
      if exists i :: 0 <= i < |cs| && ExchangeSymbol(cs[i]) == key {
        var i :| 0 <= i < |cs| && ExchangeSymbol(cs[i]) == key;
        if i < |cs| - 1 {
          assert cs[..|cs| - 1][i] == cs[i];
        }
      }
    }
  }

  /** A key no coin has keeps the id it had. */
  lemma {:induction false} RegisterKeeps(t: SymbolTable, cs: seq<Coin>, key: string)
    requires TableValid(t) && key in t.ids
    requires forall i :: 0 <= i < |cs| ==> ExchangeSymbol(cs[i]) != key
    ensures key in Register(t, cs).ids && Register(t, cs).ids[key] == t.ids[key]
    decreases |cs|
  {
    if cs != [] {
      RegisterKeeps(t, cs[..|cs| - 1], key);
      PutLookup(Register(t, cs[..|cs| - 1]), ExchangeSymbol(cs[|cs| - 1]), cs[|cs| - 1].id);
    }
  }

  /** The last coin with a key decides its id: a later coin overwrites an earlier one. */
  lemma {:induction false} RegisterLastWins(t: SymbolTable, cs: seq<Coin>, key: string, i: int)
    requires TableValid(t) && LastWith(cs, key, i)
    ensures key in Register(t, cs).ids && Register(t, cs).ids[key] == cs[i].id
    decreases |cs|
  {
    PutLookup(Register(t, cs[..|cs| - 1]), ExchangeSymbol(cs[|cs| - 1]), cs[|cs| - 1].id);
    if i < |cs| - 1 {
      assert LastWith(cs[..|cs| - 1], key, i);
      RegisterLastWins(t, cs[..|cs| - 1], key, i);
    }
  }

  // ---------------------------------------------------------------------------
  // Stream paths
  // ---------------------------------------------------------------------------

  /** `parts.join(sep)`. */
  function Join(parts: seq<string>, sep: char): string {
    if parts == [] then ""
    else if |parts| == 1 then parts[0]
    else parts[0] + [sep] + Join(parts[1..], sep)
  }

  /** `keys.map(s => s + "@ticker")`. */
  function Tickers(keys: seq<string>): seq<string> {
    seq(|keys|, i requires 0 <= i < |keys| => keys[i] + "@ticker")
  }

  /** The combined stream path the socket is opened on. */
  function StreamPath(keys: seq<string>): string {
    Join(Tickers(keys), '/')
  }

  /** `s.split(sep)`, which gives `[""]` for the empty string. */
  function Split(s: string, sep: char): (r: seq<string>)
    ensures |r| >= 1
    decreases |s|
  {
    if s == [] then [""]
    else
      var rest := Split(s[1..], sep);
      if s[0] == sep then [""] + rest else [[s[0]] + rest[0]] + rest[1..]
  }

  lemma {:induction false} SplitWithoutSeparator(p: string, sep: char)
    requires sep !in p
    ensures Split(p, sep) == [p]
    decreases |p|
  {
    if p != [] {
      SplitWithoutSeparator(p[1..], sep);
      assert [p[0]] + p[1..] == p;
    }
  }

  lemma {:induction false} SplitAtSeparator(p: string, s: string, sep: char)
    requires sep !in p
    ensures Split(p + [sep] + s, sep) == [p] + Split(s, sep)
    decreases |p|
  {
    if p == [] {
      assert (p + [sep] + s)[1..] == s;
    } else {
      assert (p + [sep] + s)[1..] == p[1..] + [sep] + s;
      SplitAtSeparator(p[1..], s, sep);
      assert [p[0]] + p[1..] == p;
    }
  }

  /** Splitting a join gives the parts back when no part holds the separator. */
  lemma {:induction false} SplitJoin(parts: seq<string>, sep: char)
    requires parts != []
    requires forall i :: 0 <= i < |parts| ==> sep !in parts[i]
    ensures Split(Join(parts, sep), sep) == parts
    decreases |parts|
  {
    if |parts| == 1 {
      SplitWithoutSeparator(parts[0], sep);
    } else {
      SplitJoin(parts[1..], sep);
      SplitAtSeparator(parts[0], Join(parts[1..], sep), sep);
    }
  }

  /** The stream path names every key's ticker stream, in the table's order. */
  lemma StreamPathNamesEveryKey(keys: seq<string>)
    requires keys != []
    requires forall i :: 0 <= i < |keys| ==> '/' !in keys[i]
    ensures Split(StreamPath(keys), '/') == Tickers(keys)
    ensures forall i :: 0 <= i < |keys| ==> Split(StreamPath(keys), '/')[i] == keys[i] + "@ticker"
  {
    forall i | 0 <= i < |keys| ensures '/' !in Tickers(keys)[i] {
      assert Tickers(keys)[i] == keys[i] + "@ticker";
    }
    SplitJoin(Tickers(keys), '/');
  }

  // ---------------------------------------------------------------------------
  // Messages, subscribers and fan-out
  // ---------------------------------------------------------------------------

  /** A decoded ticker message: the symbol `s`, the last price `c`, the 24h change `P`. */
  datatype Message = Message(symbol: string, lastPrice: real, changePercent: real)

  datatype Update = Update(id: string, price: real, change: real)

  /** `onmessage`: look up the lower-cased symbol; an unknown symbol, or one mapped to the
      empty id (which JavaScript reads as false), is dropped. */
  function Route(ids: map<string, string>, m: Message): (r: Option<Update>)
    ensures r.Some? <==> Lower(m.symbol) in ids && ids[Lower(m.symbol)] != ""
    ensures r.Some? ==> r.value.id == ids[Lower(m.symbol)] && r.value.price == m.lastPrice && r.value.change == m.changePercent
  {
    var key := Lower(m.symbol);
    if key in ids && ids[key] != "" then Some(Update(ids[key], m.lastPrice, m.changePercent)) else None
  }

  /** A ticker message for a registered coin reaches its id, in whatever case the exchange
      spells the symbol (`BTCUSDT` for the coin `btc`, see `ExchangeSymbolOfTicker`). */
  lemma RouteRegistered(t: SymbolTable, cs: seq<Coin>, i: int, m: Message)
    requires TableValid(t)
    requires 0 <= i < |cs| && LastWith(cs, ExchangeSymbol(cs[i]), i) && cs[i].id != ""
    requires Lower(m.symbol) == ExchangeSymbol(cs[i])
    ensures Route(Register(t, cs).ids, m) == Some(Update(cs[i].id, m.lastPrice, m.changePercent))
  {
    RegisterLastWins(t, cs, ExchangeSymbol(cs[i]), i);
  }

  /** The exchange's ticker message for a registered coin, `Upper(symbol) + "USDT"`, reaches
      that coin's id. */
  lemma RouteTicker(t: SymbolTable, cs: seq<Coin>, i: int, m: Message)
    requires TableValid(t)
    requires 0 <= i < |cs| && LastWith(cs, ExchangeSymbol(cs[i]), i) && cs[i].id != ""
    requires m.symbol == Upper(cs[i].symbol) + "USDT"
    ensures Route(Register(t, cs).ids, m) == Some(Update(cs[i].id, m.lastPrice, m.changePercent))
  {
    ExchangeSymbolOfTicker(cs[i]);
    RouteRegistered(t, cs, i, m);
  }

  /** A message whose symbol was never registered reaches nobody. */
  lemma RouteUnknown(t: SymbolTable, cs: seq<Coin>, m: Message)
    requires TableValid(t) && Lower(m.symbol) !in t.ids
    requires forall i :: 0 <= i < |cs| ==> ExchangeSymbol(cs[i]) != Lower(m.symbol)
    ensures Route(Register(t, cs).ids, m) == None
  {
    RegisterKeys(t, cs, Lower(m.symbol));
  }

  /** A subscriber callback, by identity. */
  type Callback = nat

  datatype Delivery = Delivery(callback: Callback, update: Update)

  /** `subscribers.add(cb)`: set semantics, insertion order. */
  function Add(subs: seq<Callback>, cb: Callback): seq<Callback> {
    if cb in subs then subs else subs + [cb]
  }

  /** `subscribers.delete(cb)`. */
  function Remove(subs: seq<Callback>, cb: Callback): seq<Callback> {
    if subs == [] then []
    else (if subs[0] == cb then [] else [subs[0]]) + Remove(subs[1..], cb)
  }

  lemma AddMembers(subs: seq<Callback>, cb: Callback)
    ensures forall x :: x in Add(subs, cb) <==> x in subs || x == cb
    ensures Add(Add(subs, cb), cb) == Add(subs, cb)
    ensures Distinct(subs) ==> Distinct(Add(subs, cb))
    ensures subs <= Add(subs, cb)
  {
  }

  lemma {:induction false} RemoveMembers(subs: seq<Callback>, cb: Callback)
    ensures forall x :: x in Remove(subs, cb) <==> x in subs && x != cb
    decreases |subs|
  {
    if subs != [] {
      RemoveMembers(subs[1..], cb);
      assert [subs[0]] + subs[1..] == subs;
    }
  }

  lemma {:induction false} RemoveAbsent(subs: seq<Callback>, cb: Callback)
    requires cb !in subs
    ensures Remove(subs, cb) == subs
    decreases |subs|
  {
    if subs != [] {
      RemoveAbsent(subs[1..], cb);
      assert [subs[0]] + subs[1..] == subs;
    }
  }

  /** Removing keeps the subscribers free of duplicates. */
  lemma {:induction false} RemoveDistinct(subs: seq<Callback>, cb: Callback)
    requires Distinct(subs)
    ensures Distinct(Remove(subs, cb))
    decreases |subs|
  {
    if subs != [] {
      assert Distinct(subs[1..]);
      RemoveDistinct(subs[1..], cb);
      RemoveMembers(subs[1..], cb);
      assert subs[0] !in subs[1..];
    }
  }

  /** Deleting a subscriber cuts it out of the insertion order: the others keep their order,
      which is the order `notify` delivers in. */
  lemma {:induction false} RemoveAt(subs: seq<Callback>, k: nat)
    requires Distinct(subs) && k < |subs|
    ensures Remove(subs, subs[k]) == subs[..k] + subs[k + 1..]
    decreases |subs|
  {
    assert subs[0] !in subs[1..];
    if k == 0 {
      RemoveAbsent(subs[1..], subs[0]);
    } else {
      assert Distinct(subs[1..]);
      assert subs[1..][k - 1] == subs[k];
      RemoveAt(subs[1..], k - 1);
      assert subs[..k] + subs[k + 1..] == [subs[0]] + (subs[1..][..k - 1] + subs[1..][k..]);
    }
  }

  /** Unsubscribing a callback that was not registered before it subscribed undoes the subscribe. */
  lemma SubscribeThenUnsubscribe(subs: seq<Callback>, cb: Callback)
    requires cb !in subs
    ensures Remove(Add(subs, cb), cb) == subs
  {
    RemoveLast(subs, cb);
  }

  lemma {:induction false} RemoveLast(subs: seq<Callback>, cb: Callback)
    requires cb !in subs
    ensures Remove(subs + [cb], cb) == subs
    decreases |subs|
  {
    if subs == [] {
      assert Remove([cb], cb) == [] + Remove([], cb);
    } else {
      assert (subs + [cb])[1..] == subs[1..] + [cb];
      RemoveLast(subs[1..], cb);
      assert [subs[0]] + subs[1..] == subs;
    }
  }

  /** `notify(data)`: one call per subscriber, in the set's order. */
  function Fanout(subs: seq<Callback>, u: Update): (r: seq<Delivery>)
    ensures |r| == |subs|
    ensures forall i :: 0 <= i < |subs| ==> r[i] == Delivery(subs[i], u)
  {
    if subs == [] then [] else Fanout(subs[..|subs| - 1], u) + [Delivery(subs[|subs| - 1], u)]
  }

  function Count(ds: seq<Delivery>, cb: Callback): nat {
    if ds == [] then 0 else Count(ds[..|ds| - 1], cb) + (if ds[|ds| - 1].callback == cb then 1 else 0)
  }

  /** Every current subscriber gets the update exactly once and nobody else gets it. */
  lemma {:induction false} FanoutOnce(subs: seq<Callback>, u: Update, cb: Callback)
    requires Distinct(subs)
    ensures Count(Fanout(subs, u), cb) == if cb in subs then 1 else 0
    decreases |subs|
  {
    if subs != [] {
      var init := subs[..|subs| - 1];
      FanoutOnce(init, u, cb);
      assert Fanout(subs, u)[..|subs| - 1] == Fanout(init, u);
      assert subs == init + [subs[|subs| - 1]];
      assert subs[|subs| - 1] == cb ==> cb !in init;
    }
  }

  // ---------------------------------------------------------------------------
  // Sockets
  // ---------------------------------------------------------------------------

  datatype ReadyState = Open | Closing | Closed

  /** A socket: the stream path it was opened on and where it is in its life. */
  datatype Socket = Socket(path: string, state: ReadyState)

  /** `if (this.ws) this.ws.close()`: an open current socket starts closing; its close event
      comes later. Closing a socket already closing or closed does nothing. */
  function Shut(sockets: seq<Socket>, ws: Option<nat>): (r: seq<Socket>)
    ensures |r| == |sockets|
    ensures forall k :: 0 <= k < |sockets| && ws != Some(k) ==> r[k] == sockets[k]
    ensures forall k :: 0 <= k < |sockets| && ws == Some(k) ==>
      r[k].path == sockets[k].path && r[k].state == (if sockets[k].state == Open then Closing else sockets[k].state)
  {
    if ws.Some? && ws.value < |sockets| && sockets[ws.value].state == Open
    then sockets[ws.value := sockets[ws.value].(state := Closing)]
    else sockets
  }

  // ---------------------------------------------------------------------------
  // The service
  // ---------------------------------------------------------------------------

  class PriceStreamService {
    var ws: Option<nat>
    var sockets: seq<Socket>
    var subscribers: seq<Callback>
    var symbols: SymbolTable
    var isReconnecting: bool
    /** Reconnect timers scheduled and not yet fired. */
    var pendingTimers: nat
    /** Every callback invocation so far, in order. */
    var delivered: seq<Delivery>

    /** The service's invariant; its last clause is the reconnect guard: a timer is pending
        exactly while the flag is set, so never more than one. */
    predicate Valid()
      reads this
    {
      && TableValid(symbols)
      && Distinct(subscribers)
      && (ws.Some? ==> ws.value < |sockets|)
      && pendingTimers == (if isReconnecting then 1 else 0)
    }

    constructor ()
      ensures Valid()
      ensures ws == None && sockets == [] && subscribers == [] && symbols == EmptyTable()
      ensures !isReconnecting && pendingTimers == 0 && delivered == []
    {
      ws := None;
      sockets := [];
      subscribers := [];
      symbols := EmptyTable();
      isReconnecting := false;
      pendingTimers := 0;
      delivered := [];
    }

    /** `init(cryptos)`: adds each coin's exchange symbol to the table (without clearing it),
        then connects. */
    method Init(cs: seq<Coin>)
      requires Valid()
      modifies this
      ensures Valid()
      ensures symbols == Register(old(symbols), cs)
      ensures sockets == Shut(old(sockets), old(ws)) + [Socket(StreamPath(symbols.keys), Open)]
      ensures ws == Some(|old(sockets)|)
      ensures subscribers == old(subscribers) && delivered == old(delivered)
      ensures isReconnecting == old(isReconnecting) && pendingTimers == old(pendingTimers)
    {
      var i := 0;
      while i < |cs|
        invariant 0 <= i <= |cs|
        invariant TableValid(symbols)
        invariant symbols == Register(old(symbols), cs[..i])
        invariant ws == old(ws) && sockets == old(sockets)
        invariant subscribers == old(subscribers) && delivered == old(delivered)
        invariant isReconnecting == old(isReconnecting) && pendingTimers == old(pendingTimers)
      {
        assert cs[..i + 1][..i] == cs[..i];
        symbols := Put(symbols, ExchangeSymbol(cs[i]), cs[i].id);
        i := i + 1;
      }
      assert cs[..i] == cs;
      Connect();
    }

    /** `connect()`: starts closing the current socket, then opens a new one on the path of
        every key in the table. */
    method Connect()
      requires Valid()
      modifies this
      ensures Valid()
      ensures sockets == Shut(old(sockets), old(ws)) + [Socket(StreamPath(symbols.keys), Open)]
      ensures ws == Some(|old(sockets)|)
      ensures symbols == old(symbols) && subscribers == old(subscribers) && delivered == old(delivered)
      ensures isReconnecting == old(isReconnecting) && pendingTimers == old(pendingTimers)
    {
      sockets := Shut(sockets, ws);
      sockets := sockets + [Socket(StreamPath(symbols.keys), Open)];
      ws := Some(|sockets| - 1);
    }

    /** `subscribe(cb)`. */
    method Subscribe(cb: Callback)
      requires Valid()
      modifies this`subscribers
      ensures Valid()
      ensures subscribers == Add(old(subscribers), cb)
    {
      AddMembers(subscribers, cb);
      if cb !in subscribers {
        subscribers := subscribers + [cb];
      }
    }

    /** The function `subscribe` returns: `subscribers.delete(cb)`, which reports whether `cb`
        was there. */
    method Unsubscribe(cb: Callback) returns (removed: bool)
      requires Valid()
      modifies this`subscribers
      ensures Valid()
      ensures removed == (cb in old(subscribers))
      ensures subscribers == Remove(old(subscribers), cb)
    {
      RemoveDistinct(subscribers, cb);
      removed := cb in subscribers;
      subscribers := Remove(subscribers, cb);
    }

    /** `notify(update)`: calls every subscriber in turn. */
    method Notify(u: Update)
      requires Valid()
      modifies this`delivered
      ensures Valid()
      ensures delivered == old(delivered) + Fanout(subscribers, u)
    {
      var i := 0;
      while i < |subscribers|
        invariant 0 <= i <= |subscribers|
        invariant delivered == old(delivered) + Fanout(subscribers[..i], u)
      {
        assert subscribers[..i + 1][..i] == subscribers[..i];
        delivered := delivered + [Delivery(subscribers[i], u)];
        i := i + 1;
      }
      assert subscribers[..i] == subscribers;
    }

    /** A message arriving on open socket `k`: routed through the table, then fanned out. */
    method OnMessage(k: nat, m: Message)
      requires Valid() && k < |sockets| && sockets[k].state == Open
      modifies this`delivered
      ensures Valid()
      ensures delivered == old(delivered) + match Route(symbols.ids, m)
        case None => []
        case Some(u) => Fanout(subscribers, u)
    {
      var r := Route(symbols.ids, m);
      if r.Some? {
        Notify(r.value);
      }
    }

    /** Socket `k`'s close event, whether we closed it or the connection dropped. The handler
        does not look at which socket closed: it schedules a reconnect unless one is pending. */
    method OnClose(k: nat)
      requires Valid() && k < |sockets| && sockets[k].state != Closed
      modifies this
      ensures Valid()
      ensures sockets == old(sockets)[k := old(sockets)[k].(state := Closed)]
      ensures isReconnecting
      ensures pendingTimers == if old(isReconnecting) then old(pendingTimers) else old(pendingTimers) + 1
      ensures ws == old(ws) && symbols == old(symbols) && subscribers == old(subscribers)
      ensures delivered == old(delivered)
    {
      sockets := sockets[k := sockets[k].(state := Closed)];
      if !isReconnecting {
        isReconnecting := true;
        pendingTimers := pendingTimers + 1;
      }
    }

    /** The reconnect timer fires: the flag is cleared and `connect()` runs. */
    method OnTimer()
      requires Valid() && pendingTimers > 0
      modifies this
      ensures Valid()
      ensures !isReconnecting && pendingTimers == old(pendingTimers) - 1 == 0
      ensures sockets == Shut(old(sockets), old(ws)) + [Socket(StreamPath(symbols.keys), Open)]
      ensures ws == Some(|old(sockets)|)
      ensures symbols == old(symbols) && subscribers == old(subscribers) && delivered == old(delivered)
    {
      pendingTimers := pendingTimers - 1;
      isReconnecting := false;
      Connect();
    }

    /** `close()`: starts closing the current socket and forgets it. It does not cancel a
        pending reconnect, and the socket's close event will schedule one. */
    method Close()
      requires Valid()
      modifies this`ws, this`sockets
      ensures Valid()
      ensures ws == None && sockets == Shut(old(sockets), old(ws))
      ensures old(ws) == None ==> sockets == old(sockets)
    {
      if ws.Some? {
        sockets := Shut(sockets, ws);
        ws := None;
      }
    }
  }

  /** `close()` does not stop the service: the closed socket's close event schedules a
      reconnect, and when the timer fires a new socket is open on the same table. */
  method CloseStillReconnects(cs: seq<Coin>) returns (s: PriceStreamService)
    ensures fresh(s) && s.Valid()
    ensures s.symbols == Register(EmptyTable(), cs)
    ensures |s.sockets| == 2 && s.sockets[0].state == Closed
    ensures s.ws == Some(1) && s.sockets[1] == Socket(StreamPath(s.symbols.keys), Open)
  {
    s := new PriceStreamService();
    s.Init(cs);
    s.Close();
    s.OnClose(0);
    s.OnTimer();
  }

  /** A second `init` on a connected service never settles: its `connect` closes the healthy
      socket, that close event schedules a reconnect, and each reconnect's `connect` closes the
      socket that was healthy again. Two rounds later a timer is due once more, while the
      current socket is open on the same table. */
  method ReinitReconnectsForever(cs: seq<Coin>) returns (s: PriceStreamService)
    ensures fresh(s) && s.Valid()
    ensures s.symbols == Register(Register(EmptyTable(), cs), cs)
    ensures |s.sockets| == 4
    ensures s.sockets[0].state == Closed && s.sockets[1].state == Closed && s.sockets[2].state == Closed
    ensures s.ws == Some(3) && s.sockets[3] == Socket(StreamPath(s.symbols.keys), Open)
    ensures s.isReconnecting && s.pendingTimers == 1
  {
    s := new PriceStreamService();
    s.Init(cs);
    s.Init(cs);
    s.OnClose(0);
    s.OnTimer();
    s.OnClose(1);
    s.OnTimer();
    s.OnClose(2);
  }
}
