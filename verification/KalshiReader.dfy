/**
 * One Kalshi connection as the reader sees it (pmarb/feeds/kalshi.py:524-627). Prices
 * are the venue's own text, sizes contracts.
 */
module KalshiReader {
  import opened Common

  datatype Side = Yes | No

  datatype Book = Book(yes: map<string, int>, no: map<string, int>)

  const EMPTY_BOOK: Book := Book(map[], map[])

  datatype Frame =
    | Snapshot(ticker: string, book: Book)
    | Delta(ticker: string, side: Option<Side>, price: Option<string>, change: int)
    | Control(id: Option<nat>, ok: bool, echo: Option<set<string>>)

  /** Book frames and command replies share one counter; a frame may carry no number at all. */
  datatype Message = Message(seqNo: Option<nat>, frame: Frame)

  function SizeAt(levels: map<string, int>, price: string): int {
    if price in levels then levels[price] else 0
  }

  /** One level moved by a signed size; nothing left means no level. */
  function Moved(levels: map<string, int>, price: string, change: int): map<string, int> {
    var size := SizeAt(levels, price) + change;
    if size <= 0 then levels - {price} else levels[price := size]
  }

  function Adjusted(b: Book, side: Side, price: string, change: int): Book {
    match side
    case Yes => b.(yes := Moved(b.yes, price, change))
    case No => b.(no := Moved(b.no, price, change))
  }

  function BookOf(books: map<string, Book>, ticker: string): Book {
    if ticker in books then books[ticker] else EMPTY_BOOK
  }

  /**
   * The reader's state: its ladders, the last number seen, the desired tickers, those to forget, and the reply awaited.
   */
  datatype Reader = Reader(books: map<string, Book>, lastSeq: Option<nat>, meta: set<string>, pruned: set<string>,
                           waiting: Option<nat>, reply: Option<Frame>)

  datatype Output = Break | Quiet | Yield(ticker: string, book: Book)

  function Forget(r: Reader): Reader {
    r.(books := r.books - r.pruned, pruned := {})
  }

  predicate Gap(r: Reader, m: Message) {
    m.seqNo.Some? && r.lastSeq.Some? && m.seqNo.value != r.lastSeq.value + 1
  }

  function Numbered(r: Reader, m: Message): Reader {
    if m.seqNo.Some? then r.(lastSeq := m.seqNo) else r
  }

  function OnControl(r: Reader, f: Frame): Reader
    requires f.Control?
  {
    if f.id.Some? && r.waiting == f.id then r.(waiting := None, reply := Some(f)) else r
  }

  function OnBook(r: Reader, f: Frame): (Reader, Output)
    requires !f.Control?
  {
    if f.ticker !in r.meta then (r, Quiet)
    else
      match f
      case Snapshot(t, b) => (r.(books := r.books[t := b]), Yield(t, b))
      case Delta(t, side, price, change) =>
        if side.None? || price.None? then (r.(books := r.books[t := BookOf(r.books, t)]), Quiet)
        else
          var b := Adjusted(BookOf(r.books, t), side.value, price.value, change);
          (r.(books := r.books[t := b]), Yield(t, b))
  }

  /** A resync records the desired tickers, and the dropped ones to forget, before anything is sent. */
  function Wanting(r: Reader, desired: set<string>): Reader {
    r.(meta := desired, pruned := r.pruned + (r.meta - desired))
  }

  /** One received frame: forget, check the number, then control traffic or a book. */
  function OnMessage(r: Reader, m: Message): (Reader, Output) {
    var forgot := Forget(r);
    if Gap(forgot, m) then (forgot, Break)
    else
      var counted := Numbered(forgot, m);
      if m.frame.Control? then (OnControl(counted, m.frame), Quiet) else OnBook(counted, m.frame)
  }

  /** The reader's variables, and the loop body that updates them in place. */
  class Stream {
    var books: map<string, Book>
    var lastSeq: Option<nat>
    var meta: set<string>
    var pruned: set<string>
    var waiting: Option<nat>
    var reply: Option<Frame>

    function State(): Reader
      reads this
    {
      Reader(books, lastSeq, meta, pruned, waiting, reply)
    }

    constructor (tickers: set<string>)
      ensures State() == Reader(map[], None, tickers, {}, None, None)
    {
      books, lastSeq, meta, pruned, waiting, reply := map[], None, tickers, {}, None, None;
    }

    method Receive(m: Message) returns (out: Output)
      modifies this
      ensures (State(), out) == OnMessage(old(State()), m)
    {
      if pruned != {} {
        books := books - pruned;
        pruned := {};
      }
      assert books == old(books) - old(pruned);
      if m.seqNo.Some? {
        if lastSeq.Some? && m.seqNo.value != lastSeq.value + 1 { return Break; }
        lastSeq := m.seqNo;
      }
      if m.frame.Control? {
        if m.frame.id.Some? && waiting == m.frame.id {
          waiting := None;
          reply := Some(m.frame);
        }
        return Quiet;
      }
      var ticker := m.frame.ticker;
      if ticker !in meta { return Quiet; }
      var book := BookOf(books, ticker);
      if m.frame.Snapshot? {
        book := m.frame.book;
      } else {
        if m.frame.side.None? || m.frame.price.None? {
          books := books[ticker := book];
          return Quiet;
        }
        book := Adjusted(book, m.frame.side.value, m.frame.price.value, m.frame.change);
      }
      books := books[ticker := book];
      out := Yield(ticker, book);
    }

    method Want(desired: set<string>) returns (added: set<string>, dropped: set<string>)
      modifies this
      ensures State() == Wanting(old(State()), desired)
      ensures added == desired - old(meta) && dropped == old(meta) - desired
    {
      added, dropped := desired - meta, meta - desired;
      meta := desired;
      pruned := pruned + dropped;
    }
  }

  // ---- verified mutations (pmarb/feeds/kalshi.py:637-690) ----

  datatype Action = Delete | Add

  /** What makes a reply count as proof: it says ok, and any membership it echoes shows the change. */
  predicate Proves(f: Frame, action: Action, tickers: set<string>) {
    && f.Control? && f.ok
    && (f.echo.Some? ==> if action == Delete then f.echo.value !! tickers else tickers <= f.echo.value)
  }
}

/** Book sides become ask ladders (pmarb/feeds/kalshi.py:328-341). */
module KalshiAsks {
  import opened DepthWalk
  import Sorting

  datatype Bid = Bid(price: Price, size: real)

  /** A bid for one side is an ask for the other at the complement. */
  function Complement(bids: seq<Bid>): Ladder {
    seq(|bids|, i requires 0 <= i < |bids| => Level(PAYOUT - bids[i].price, bids[i].size))
  }

  function AsksFromBids(bids: seq<Bid>): Ladder {
    Sorting.Sort(Complement(bids), (x: Level, y: Level) => x.price <= y.price)
  }

  /**
   * The detector's requirement, kept by construction: cheapest first, nothing
   * lost, the best ask the complement of the best bid.
   */
  lemma AsksMean(bids: seq<Bid>)
    ensures Ascending(AsksFromBids(bids))
    ensures multiset(AsksFromBids(bids)) == multiset(Complement(bids))
    ensures bids != [] ==>
              && AsksFromBids(bids) != []
              && (forall i :: 0 <= i < |bids| ==> AsksFromBids(bids)[0].price <= PAYOUT - bids[i].price)
              && exists i :: 0 <= i < |bids| && AsksFromBids(bids)[0].price == PAYOUT - bids[i].price
  {
    var le := (x: Level, y: Level) => x.price <= y.price;
    var asks := AsksFromBids(bids);
    Sorting.SortSorted(Complement(bids), le);
    Sorting.SortMembers(Complement(bids), le);
    forall i, j | 0 <= i < j < |asks| ensures asks[i].price <= asks[j].price {
      assert le(asks[i], asks[j]);
    }
    if bids != [] {
      forall i | 0 <= i < |bids| ensures asks[0].price <= PAYOUT - bids[i].price {
        assert Complement(bids)[i] in asks;
      }
      assert asks[0] in Complement(bids);
    }
  }
}
