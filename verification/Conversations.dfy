/** What each connection of a run has said: the dispatcher's language, seen from the interleaved server. */
module Conversations {
  import opened Wrappers
  import opened Dispatching
  import opened ServerCore
  import opened Connections
  import opened SessionProtocol
  import opened ProtocolRuns
  import opened MessageOrder
  import Tokens

  /** What connection `c` says in this step that its dispatcher lets through. */
  function Said(s: System, step: Step, c: Uuid): Word {
    if step.action.Take? && step.action.conn == c && c in s.conns && step.action.input.Frame?
       && Dispatch(s.conns[c].state, Kind(step.action.input.msg)).1.Success?
    then [Kind(step.action.input.msg)] else []
  }

  /** All that connection `c` has said in a run, in order. */
  function Heard(h: string -> Tokens.Digest, s: System, steps: Steps, c: Uuid): Word
    decreases |steps|
  {
    if steps == [] then []
    else
      var front := steps[..|steps| - 1];
      Heard(h, s, front, c) + Said(After(h, s, front), steps[|steps| - 1], c)
  }

  lemma TakingKeepsState(st: Server, c: Conn, resume: bool, env: Env)
    ensures TakeSession(st, c, resume, env).conn.state == c.state
  {
  }

  lemma AuthKeepsState(h: string -> Tokens.Digest, st: Server, c: Conn, token: Option<string>, env: Env)
    ensures HandleAuth(h, st, c, token, env).conn.state == c.state
  {
  }

  lemma MessageKeepsState(h: string -> Tokens.Digest, st: Server, c: Conn, msg: Message, env: Env)
    ensures HandleMessage(h, st, c, msg, env).conn.state == c.state
  {
    match msg
    case Auth(token) => AuthKeepsState(h, st, c, token, env);
    case Attach(_) => TakingKeepsState(st, c, false, env);
    case Resume(_) => TakingKeepsState(st, c, true, env);
    case _ =>
  }

  lemma TurnMovesDispatcher(h: string -> Tokens.Digest, st: Server, c: Conn, input: Input, env: Env)
    ensures TakeTurn(h, st, c, input, env).conn.state ==
            if input.Frame? && Dispatch(c.state, Kind(input.msg)).1.Success?
            then Dispatch(c.state, Kind(input.msg)).0 else c.state
  {
    if input.Frame? && Dispatch(c.state, Kind(input.msg)).1.Success? {
      MessageKeepsState(h, st, c.(state := Dispatch(c.state, Kind(input.msg)).0), input.msg, env);
    }
  }

  /** A connection is where its words have brought it, from AWAIT_HELLO on; one that is not there has said nothing. */
  predicate InPlace(conns: map<Uuid, Conn>, c: Uuid, w: Word) {
    if c in conns then Run(AwaitHello, w) == Some(conns[c].state) else w == []
  }

  lemma StepInPlace(h: string -> Tokens.Digest, s: System, step: Step, c: Uuid, w: Word)
    requires Enabled(h, s, step) && InPlace(s.conns, c, w)
    ensures InPlace(Next(h, s, step).conns, c, w + Said(s, step, c))
  {
    var said := Said(s, step, c);
    assert w + [] == w;
    if step.action.Take? && step.action.conn == c {
      TurnMovesDispatcher(h, s.server, s.conns[c], step.action.input, step.action.env);
      RunAppend(AwaitHello, w, said);
      if said != [] {
        assert said[1..] == [];
      }
    }
  }

  lemma {:induction false} RunInPlace(h: string -> Tokens.Digest, s: System, steps: Steps, c: Uuid)
    requires s.conns == map[] && IsRun(h, s, steps)
    ensures InPlace(After(h, s, steps).conns, c, Heard(h, s, steps, c))
    decreases |steps|
  {
    if steps != [] {
      var front := steps[..|steps| - 1];
      RunInPlace(h, s, front, c);
      StepInPlace(h, After(h, s, front), steps[|steps| - 1], c, Heard(h, s, front, c));
    }
  }

  /** The beginning of a conversation that the grammar allows. */
  ghost predicate Begins(w: Word) {
    exists more :: Matches(Conversation(), w + more)
  }

  lemma AcceptedBegins(w: Word)
    ensures Begins(w) <==> Run(AwaitHello, w).Some?
  {
    AcceptsExactlyPrefixes(w);
  }

  /**
   In any run of the server, whatever the other connections do, what one connection gets through is a
   word its dispatcher accepts from AWAIT_HELLO on, so a beginning of PING* HELLO PING* AUTH PING*
   (CLOSE, or (ATTACH or RESUME) (RESIZE, DETACH or PING)* CLOSE); and its state is where that leads.
   */
  lemma EveryConversation(h: string -> Tokens.Digest, cfg: Config, raw: string, now: Time, steps: Steps, c: Uuid)
    requires IsRun(h, Start(h, cfg, raw, now), steps)
    ensures var s0 := Start(h, cfg, raw, now);
            var s, w := After(h, s0, steps), Heard(h, s0, steps, c);
            && Begins(w)
            && (if c in s.conns then Run(AwaitHello, w) == Some(s.conns[c].state) else w == [])
  {
    var s0 := Start(h, cfg, raw, now);
    var w := Heard(h, s0, steps, c);
    RunInPlace(h, s0, steps, c);
    AcceptedBegins(w);
  }
}
