/**
 The language of message sequences the dispatcher accepts, as a regular expression with its own
 meaning, independent of the machine.
 */
module MessageOrder {
  import opened Wrappers
  import opened Dispatching

  type Word = seq<MessageKind>

  datatype Regex =
    | Nothing
    | One(kinds: set<MessageKind>)
    | Many(kinds: set<MessageKind>)
    | Then(first: Regex, second: Regex)
    | Or(left: Regex, right: Regex)

  ghost predicate Matches(r: Regex, w: Word) {
    match r
    case Nothing => w == []
    case One(kinds) => |w| == 1 && w[0] in kinds
    case Many(kinds) => forall i :: 0 <= i < |w| ==> w[i] in kinds
    case Then(a, b) => exists i :: 0 <= i <= |w| && Matches(a, w[..i]) && Matches(b, w[i..])
    case Or(a, b) => Matches(a, w) || Matches(b, w)
  }

  /** PING* HELLO PING* AUTH PING* (CLOSE | (ATTACH|RESUME) (RESIZE|DETACH|PING)* CLOSE) */
  function Conversation(): Regex {
    Then(Many({Ping}), Then(One({Hello}), Authenticating()))
  }

  function Authenticating(): Regex {
    Then(Many({Ping}), Then(One({Auth}), Choosing()))
  }

  function Choosing(): Regex {
    Then(Many({Ping}), Or(One({Close}), Then(One({Attach, Resume}), Working())))
  }

  function Working(): Regex {
    Then(Many({Resize, Detach, Ping}), One({Close}))
  }

  /** What may still be said in each state for the conversation to end in CLOSE. */
  function Rest(s: ConnectionState): Regex {
    match s
    case AwaitHello => Conversation()
    case AwaitAuth => Authenticating()
    case AwaitAttachOrResume => Choosing()
    case Attached => Working()
    case Closed => Nothing
  }

  /** The dispatcher on a whole word: None as soon as one message is refused. */
  function Run(s: ConnectionState, w: Word): Option<ConnectionState>
    decreases |w|
  {
    if w == [] then Some(s)
    else
      var (s', r) := Dispatch(s, w[0]);
      if r.Success? then Run(s', w[1..]) else None
  }

  lemma OneThen(kinds: set<MessageKind>, r: Regex, w: Word)
    ensures Matches(Then(One(kinds), r), w) <==> w != [] && w[0] in kinds && Matches(r, w[1..])
  {
    if w != [] && w[0] in kinds && Matches(r, w[1..]) {
      assert Matches(One(kinds), w[..1]);
    }
  }

  /** Some messages of `kinds`, and then a word of the language `rest`. */
  ghost predicate ManyBefore(kinds: set<MessageKind>, rest: Word -> bool, w: Word) {
    exists i :: 0 <= i <= |w| && (forall k :: 0 <= k < i ==> w[k] in kinds) && rest(w[i..])
  }

  lemma ManyBeforeStep(kinds: set<MessageKind>, rest: Word -> bool, w: Word)
    ensures ManyBefore(kinds, rest, w) <==>
              rest(w) || (w != [] && w[0] in kinds && ManyBefore(kinds, rest, w[1..]))
  {
    assert w[0..] == w;
    if ManyBefore(kinds, rest, w) && !rest(w) {
      var i :| 0 <= i <= |w| && (forall k :: 0 <= k < i ==> w[k] in kinds) && rest(w[i..]);
      assert w[1..][i - 1..] == w[i..];
    }
    if w != [] && w[0] in kinds && ManyBefore(kinds, rest, w[1..]) {
      var i :| 0 <= i <= |w[1..]| && (forall k :: 0 <= k < i ==> w[1..][k] in kinds) && rest(w[1..][i..]);
      assert w[i + 1..] == w[1..][i..];
      assert forall k :: 1 <= k < i + 1 ==> w[k] == w[1..][k - 1];
    }
  }

  lemma ThenIsManyBefore(kinds: set<MessageKind>, r: Regex, rest: Word -> bool, w: Word)
    requires forall v :: rest(v) <==> Matches(r, v)
    ensures Matches(Then(Many(kinds), r), w) <==> ManyBefore(kinds, rest, w)
  {
    forall i | 0 <= i <= |w|
      ensures Matches(Many(kinds), w[..i]) <==> forall k :: 0 <= k < i ==> w[k] in kinds
    {
      assert forall k :: 0 <= k < i ==> w[..i][k] == w[k];
    }
  }

  lemma ManyThen(kinds: set<MessageKind>, r: Regex, w: Word)
    ensures Matches(Then(Many(kinds), r), w) <==>
              || Matches(r, w)
              || (w != [] && w[0] in kinds && Matches(Then(Many(kinds), r), w[1..]))
  {
    ghost var rest := v => Matches(r, v);
    ThenIsManyBefore(kinds, r, rest, w);
    ManyBeforeStep(kinds, rest, w);
    if w != [] {
      ThenIsManyBefore(kinds, r, rest, w[1..]);
    }
  }

  lemma ManyThenOne(kinds: set<MessageKind>, next: set<MessageKind>, r: Regex, w: Word)
    ensures Matches(Then(Many(kinds), Then(One(next), r)), w) <==>
              && w != []
              && (|| (w[0] in kinds && Matches(Then(Many(kinds), Then(One(next), r)), w[1..]))
                  || (w[0] in next && Matches(r, w[1..])))
  {
    ManyThen(kinds, Then(One(next), r), w);
    OneThen(next, r, w);
  }

  lemma ChoosingStep(r: Regex, w: Word)
    ensures var choosing := Then(Many({Ping}), Or(One({Close}), Then(One({Attach, Resume}), r)));
            Matches(choosing, w) <==>
              && w != []
              && (|| (w[0] == Ping && Matches(choosing, w[1..]))
                  || (w[0] == Close && w[1..] == [])
                  || (w[0] in {Attach, Resume} && Matches(r, w[1..])))
  {
    var attach := Then(One({Attach, Resume}), r);
    ManyThen({Ping}, Or(One({Close}), attach), w);
    OneThen({Attach, Resume}, r, w);
    assert Matches(Or(One({Close}), attach), w) <==> Matches(One({Close}), w) || Matches(attach, w);
    assert Matches(One({Close}), w) <==> w != [] && w[0] == Close && w[1..] == [];
  }

  lemma WorkingStep(w: Word)
    ensures Matches(Working(), w) <==>
              && w != []
              && (|| (w[0] in {Resize, Detach, Ping} && Matches(Working(), w[1..]))
                  || (w[0] == Close && w[1..] == []))
  {
    ManyThen({Resize, Detach, Ping}, One({Close}), w);
    assert Matches(One({Close}), w) <==> w != [] && w[0] == Close && w[1..] == [];
  }

  /** One message from state `s`, told by the grammar alone. */
  ghost predicate Stepwise(s: ConnectionState, w: Word) {
    Matches(Rest(s), w) <==>
      if w == [] then s == Closed
      else Dispatch(s, w[0]).1.Success? && Matches(Rest(Dispatch(s, w[0]).0), w[1..])
  }

  lemma HelloStep(w: Word)
    ensures Stepwise(AwaitHello, w)
  {
    ManyThenOne({Ping}, {Hello}, Authenticating(), w);
  }

  lemma AuthStep(w: Word)
    ensures Stepwise(AwaitAuth, w)
  {
    ManyThenOne({Ping}, {Auth}, Choosing(), w);
  }

  lemma AttachStep(w: Word)
    ensures Stepwise(AwaitAttachOrResume, w)
  {
    ChoosingStep(Working(), w);
    assert w != [] ==> (Matches(Rest(Closed), w[1..]) <==> w[1..] == []);
  }

  lemma AttachedStep(w: Word)
    ensures Stepwise(Attached, w)
  {
    WorkingStep(w);
    assert w != [] ==> (Matches(Rest(Closed), w[1..]) <==> w[1..] == []);
  }

  lemma RestStep(s: ConnectionState, w: Word)
    ensures Stepwise(s, w)
  {
    match s
    case AwaitHello => HelloStep(w);
    case AwaitAuth => AuthStep(w);
    case AwaitAttachOrResume => AttachStep(w);
    case Attached => AttachedStep(w);
    case Closed => assert Matches(Rest(Closed), w) <==> w == [];
  }

  /** The words that take the dispatcher to Closed are exactly those of the grammar. */
  lemma {:induction false} CompleteConversations(s: ConnectionState, w: Word)
    ensures Run(s, w) == Some(Closed) <==> Matches(Rest(s), w)
    decreases |w|
  {
    RestStep(s, w);
    if w != [] && Dispatch(s, w[0]).1.Success? {
      CompleteConversations(Dispatch(s, w[0]).0, w[1..]);
    }
  }

  lemma {:induction false} RunAppend(s: ConnectionState, v: Word, w: Word)
    ensures Run(s, v + w) == if Run(s, v).Some? then Run(Run(s, v).value, w) else None
    decreases |v|
  {
    if v == [] {
      assert v + w == w;
    } else {
      assert (v + w)[0] == v[0] && (v + w)[1..] == v[1..] + w;
      RunAppend(Dispatch(s, v[0]).0, v[1..], w);
    }
  }

  /** Every state has a way to the end. */
  function Ending(s: ConnectionState): Word {
    match s
    case AwaitHello => [Hello, Auth, Close]
    case AwaitAuth => [Auth, Close]
    case AwaitAttachOrResume => [Close]
    case Attached => [Close]
    case Closed => []
  }

  lemma EndingCloses(s: ConnectionState)
    ensures Run(s, Ending(s)) == Some(Closed)
  {
    assert Run(Closed, []) == Some(Closed);
    assert [Close][1..] == [];
    assert Run(AwaitAttachOrResume, [Close]) == Some(Closed);
    assert [Auth, Close][1..] == [Close];
    assert Run(AwaitAuth, [Auth, Close]) == Some(Closed);
    assert [Hello, Auth, Close][1..] == [Auth, Close];
  }

  /** A word is accepted if and only if it can be continued to a conversation of the grammar. */
  lemma AcceptsExactlyPrefixes(w: Word)
    ensures Run(AwaitHello, w).Some? <==> exists v :: Matches(Conversation(), w + v)
  {
    if Run(AwaitHello, w).Some? {
      var v := Ending(Run(AwaitHello, w).value);
      EndingCloses(Run(AwaitHello, w).value);
      RunAppend(AwaitHello, w, v);
      CompleteConversations(AwaitHello, w + v);
      assert Matches(Conversation(), w + v);
    }
    forall v | Matches(Conversation(), w + v)
      ensures Run(AwaitHello, w).Some?
    {
      CompleteConversations(AwaitHello, w + v);
      RunAppend(AwaitHello, w, v);
    }
  }

  // ---------------------------------------------------------------- the client

  /** What `neosh` sends up to and including its first DETACH or CLOSE. */
  function ClientScript(): Regex {
    Then(One({Hello}), Then(One({Auth}), Then(One({Attach, Resume}), ClientAttached())))
  }

  function ClientAttached(): Regex {
    Then(Many({Resize, Ping}), Or(Nothing, One({Detach, Close})))
  }

  lemma {:induction false} AttachedChatter(w: Word)
    requires Matches(ClientAttached(), w)
    ensures Run(Attached, w).Some?
    decreases |w|
  {
    var tail := Or(Nothing, One({Detach, Close}));
    ManyThen({Resize, Ping}, tail, w);
    if Matches(tail, w) {
      if w != [] {
        assert w[1..] == [];
      }
    } else {
      AttachedChatter(w[1..]);
    }
  }

  lemma ClientAfterHello(w: Word)
    requires Matches(ClientScript(), w)
    ensures w != [] && w[0] == Hello
    ensures Matches(Then(One({Auth}), Then(One({Attach, Resume}), ClientAttached())), w[1..])
  {
    OneThen({Hello}, Then(One({Auth}), Then(One({Attach, Resume}), ClientAttached())), w);
  }

  lemma ClientFromAuth(w: Word)
    requires Matches(Then(One({Auth}), Then(One({Attach, Resume}), ClientAttached())), w)
    ensures Run(AwaitAuth, w).Some?
  {
    OneThen({Auth}, Then(One({Attach, Resume}), ClientAttached()), w);
    OneThen({Attach, Resume}, ClientAttached(), w[1..]);
    AttachedChatter(w[1..][1..]);
    assert Run(AwaitAttachOrResume, w[1..]).Some?;
  }

  /** The server refuses nothing that the client sends, nor any part of it cut short. */
  lemma ClientNeverRefused(w: Word, n: nat)
    requires Matches(ClientScript(), w) && n <= |w|
    ensures Run(AwaitHello, w).Some? && Run(AwaitHello, w[..n]).Some?
  {
    ClientAfterHello(w);
    ClientFromAuth(w[1..]);
    RunAppend(AwaitHello, w[..n], w[n..]);
    assert w[..n] + w[n..] == w;
  }
}
