/** What a supervisor does to the asks, act by act, and its callers in between: the supervisor's part of
    the books depends on its own acts alone. */
module AskActs {
  import A = Asks

  type AskId = A.AskId

  /** The supervisor's part of the books. */
  datatype Core = Core(phase: A.Phase, handingOff: bool, withdrawn: set<AskId>, written: multiset<AskId>)

  /** One act, with what the supervisor finds in the shared state as it acts. */
  datatype Act =
    | Records(ask: AskId)                                   // an ask under an id of its own
    | Finds(ask: AskId, pending: bool)                      // a withdrawal, the ask pending or not
    | Takes(command: A.Queued, gaveUp: bool, fits: bool, accepts: bool, writes: bool)
    | HandsOver(begins: bool)                               // a hand-off ends
    | Forgets(asks: set<AskId>)                             // the asks of a route or thread that ends
    | Stops
    | Ends
    | Drops

  function CoreOf(b: A.Books): Core {
    Core(b.phase, b.handingOff, b.withdrawn, b.written)
  }

  function MoveOf(act: Act): A.Move {
    match act
    case Records(ask) => A.Emits(ask)
    case Finds(ask, _) => A.Withdraws(ask)
    case Takes(_, gaveUp, fits, accepts, writes) => A.Serves(gaveUp, fits, accepts, writes)
    case HandsOver(begins) => A.HandOffEnds(begins)
    case Forgets(asks) => A.Forgets(asks)
    case Stops => A.Stops
    case Ends => A.Ends
    case Drops => A.Drops
  }

  /** What the act finds is what the books hold. */
  predicate Sees(b: A.Books, act: Act) {
    match act
    case Records(ask) => ask !in b.emitted
    case Finds(ask, pending) => pending <==> ask in b.pending
    case Takes(command, _, _, _, _) => b.queue != [] && b.queue[0] == command
    case _ => true
  }

  /** The supervisor is where the act can be. */
  predicate Can(c: Core, act: Act) {
    match act
    case Forgets(_) => true
    case HandsOver(_) => c.phase.Serving? && c.handingOff
    case Stops => c.phase.Serving?
    case Drops => c.phase.Over?
    case _ => c.phase.Serving? || c.phase.Stopping?
  }

  /** The least books in which the act finds what it finds. */
  function Own(c: Core, act: Act): A.Books {
    A.QUIET.(phase := c.phase, handingOff := c.handingOff, withdrawn := c.withdrawn, written := c.written,
             pending := if act.Finds? && act.pending then {act.ask} else {},
             queue := if act.Takes? then [act.command] else [])
  }

  /** What the act does to the supervisor's part. */
  function DoOne(c: Core, act: Act): Core {
    CoreOf(A.Next(Own(c, act), MoveOf(act)))
  }

  /** An act is possible when it finds what the books hold, and does to the supervisor's part of any
      books what it does to the least. */
  lemma ActsAlike(b: A.Books, act: Act)
    requires Sees(b, act) && Can(CoreOf(b), act)
    ensures A.CanMove(b, MoveOf(act))
    ensures CoreOf(A.Next(b, MoveOf(act))) == DoOne(CoreOf(b), act)
  {
    if act.Takes? {
      TakesAlike(Own(CoreOf(b), act), b, act);
    }
    hide A.Serve;
  }

  lemma TakesAlike(own: A.Books, b: A.Books, act: Act)
    requires act.Takes? && own.queue != [] && b.queue != [] && own.queue[0] == b.queue[0]
    requires CoreOf(own) == CoreOf(b)
    ensures CoreOf(A.Serve(own, act.gaveUp, act.fits, act.accepts, act.writes))
         == CoreOf(A.Serve(b, act.gaveUp, act.fits, act.accepts, act.writes))
  {
  }

  // ---- Acts in a row -------------------------------------------------------------------------

  function DoAll(c: Core, acts: seq<Act>): Core
    decreases |acts|
  {
    if acts == [] then c else DoAll(DoOne(c, acts[0]), acts[1..])
  }

  predicate AllCan(c: Core, acts: seq<Act>)
    decreases |acts|
  {
    acts == [] || (Can(c, acts[0]) && AllCan(DoOne(c, acts[0]), acts[1..]))
  }

  lemma {:induction false} InTwo(c: Core, first: seq<Act>, rest: seq<Act>)
    ensures DoAll(c, first + rest) == DoAll(DoAll(c, first), rest)
    ensures AllCan(c, first + rest) <==> AllCan(c, first) && AllCan(DoAll(c, first), rest)
    decreases |first|
  {
    hide DoOne, Can;
    if first == [] {
      assert first + rest == rest;
    } else {
      InTwo(DoOne(c, first[0]), first[1..], rest);
      assert (first + rest)[0] == first[0] && (first + rest)[1..] == first[1..] + rest;
    }
  }

  lemma InOne(c: Core, act: Act)
    ensures DoAll(c, [act]) == DoOne(c, act) && (AllCan(c, [act]) <==> Can(c, act))
  {
    hide DoOne, Can;
    assert [act][1..] == [];
  }

  // ---- The supervisor and its callers --------------------------------------------------------

  /** The supervisor acts, or a call takes an ask, puts it back, enqueues a command or forgets asks. */
  datatype Happening = Acted(act: Act) | Called(move: A.Move)

  predicate OfCallers(m: A.Move) {
    m.TakesAsk? || m.PutsBack? || m.Sends? || m.Posts? || m.Forgets?
  }

  function MoveIn(h: Happening): A.Move {
    if h.Acted? then MoveOf(h.act) else h.move
  }

  function MovesIn(hs: seq<Happening>): seq<A.Move> {
    seq(|hs|, i requires 0 <= i < |hs| => MoveIn(hs[i]))
  }

  function ActsIn(hs: seq<Happening>): seq<Act> {
    if hs == [] then [] else (if hs[0].Acted? then [hs[0].act] else []) + ActsIn(hs[1..])
  }

  /** Every act finds what the books hold when it is done; the calls are calls. */
  predicate Seen(b: A.Books, hs: seq<Happening>)
    decreases |hs|
  {
    hs == [] ||
    (&& (if hs[0].Acted? then Sees(b, hs[0].act) else OfCallers(hs[0].move))
     && Seen(A.Next(b, MoveIn(hs[0])), hs[1..]))
  }

  /** Every act is a move the books allow when it is done. */
  predicate Possible(b: A.Books, hs: seq<Happening>)
    decreases |hs|
  {
    hs == [] ||
    (&& (hs[0].Acted? ==> A.CanMove(b, MoveOf(hs[0].act)))
     && Possible(A.Next(b, MoveIn(hs[0])), hs[1..]))
  }

  lemma CallsLeaveIt(b: A.Books, m: A.Move)
    requires OfCallers(m)
    ensures CoreOf(A.Next(b, m)) == CoreOf(b)
  {
  }

  /** However calls come in between, the acts are moves of the books, each possible when it is done, and
      the supervisor's part is what its own acts make of it. */
  lemma {:induction false} ActsAmongCalls(b: A.Books, hs: seq<Happening>)
    requires Seen(b, hs) && AllCan(CoreOf(b), ActsIn(hs))
    ensures Possible(b, hs)
    ensures CoreOf(A.Run(b, MovesIn(hs))) == DoAll(CoreOf(b), ActsIn(hs))
    decreases |hs|
  {
    hide A.Next, A.CanMove, DoOne, Can, Sees, CoreOf, OfCallers, MoveOf;
    if hs != [] {
      assert MovesIn(hs)[0] == MoveIn(hs[0]) && MovesIn(hs)[1..] == MovesIn(hs[1..]);
      match hs[0] {
        case Acted(act) =>
          assert ActsIn(hs) == [act] + ActsIn(hs[1..]);
          ActsAlike(b, act);
        case Called(m) =>
          assert ActsIn(hs) == ActsIn(hs[1..]);
          CallsLeaveIt(b, m);
      }
      ActsAmongCalls(A.Next(b, MoveIn(hs[0])), hs[1..]);
    }
  }
}
