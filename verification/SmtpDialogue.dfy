/** The dialogue that sends one mail, driven by the replies of the server. */
module SmtpDialogue {
  import opened Runs
  import opened Text

  datatype ConnectionType = Plain | Ssl | StartTls

  /** What is to be sent: `to`, `cc` and `bcc` hold the addresses to deliver to. */
  datatype Mail = Mail(
    connectionType: ConnectionType,
    domain: string,
    user: string,
    password: string,
    sender: string,
    to: seq<string>,
    cc: seq<string>,
    bcc: seq<string>,
    message: string)

  datatype Command =
    | Ehlo(domain: string)
    | StartTlsCommand
    | AuthLogin
    | UserName(user: string)
    | Password(password: string)
    | MailFrom(sender: string)
    | RcptTo(recipient: string)
    | Data
    | Message(message: string)
    | Quit

  /** What a command was sent on: a reply with a code, or the connection having become encrypted. */
  datatype Cause = Code(code: int) | Encrypted

  datatype Sent = Sent(command: Command, cause: Cause)

  datatype Stage = Init | Tls | Auth | User | Pass | FromStage | Rcpt | DataStage | Body | QuitStage | Close

  /** The code a reply starts with, and whether it mentions STARTTLS. */
  datatype Reply = Reply(code: int, offersStartTls: bool)

  datatype Event = ReadyRead(reply: Reply) | Error | EncryptionReady

  /** The dialogue so far; `left` are the recipients not yet named, and `rounds` counts the times the
      connection became encrypted. */
  datatype Session = Session(
    stage: Stage,
    open: bool,
    result: bool,
    left: seq<string>,
    handshaking: bool,
    sent: seq<Sent>,
    rounds: nat)

  function Recipients(m: Mail): seq<string> { m.to + m.cc + m.bcc }

  function Start(m: Mail): Session { Session(Init, true, false, Recipients(m), false, [], 0) }

  // ---- The reactions ----

  /** What a reply is answered with: a command, and then the stage is `next`; the start of encryption;
      the end after QUIT; or the end because the reply was not expected. */
  datatype Answer = Command(command: Command, next: Stage) | Encrypt | Finish | GiveUp

  function AnswerTo(m: Mail, stage: Stage, left: seq<string>, r: Reply): Answer {
    if stage == Init && r.code == 220 then Command(Ehlo(m.domain), Auth)
    else if stage == Auth && r.code == 250 then
      if r.offersStartTls && m.connectionType == StartTls then Command(StartTlsCommand, Tls)
      else Command(AuthLogin, User)
    else if stage == Tls && r.code == 220 then Encrypt
    else if stage == User && r.code == 334 then Command(UserName(m.user), Pass)
    else if stage == Pass && r.code == 334 then Command(Password(m.password), FromStage)
    else if stage == FromStage && r.code == 235 then Command(MailFrom(m.sender), Rcpt)
    else if stage == Rcpt && r.code == 250 then
      if left != [] then Command(RcptTo(left[0]), if |left| == 1 then DataStage else Rcpt)
      else Command(Data, Body)
    else if stage == DataStage && r.code == 250 then Command(Data, Body)
    else if stage == Body && r.code == 354 then Command(Message(m.message), QuitStage)
    else if stage == QuitStage && r.code == 250 then Command(Quit, Close)
    else if stage == Close then Finish
    else GiveUp
  }

  function Say(s: Session, c: Command, cause: Cause, next: Stage): Session {
    s.(sent := s.sent + [Sent(c, cause)], stage := next, left := LeftAfter(c, s.left))
  }

  function OnReply(m: Mail, s: Session, r: Reply): Session {
    match AnswerTo(m, s.stage, s.left, r)
    case Command(c, next) => Say(s, c, Code(r.code), next)
    case Encrypt => s.(handshaking := true)
    case Finish => s.(result := true, open := false)
    case GiveUp => s.(stage := Close, open := false)
  }

  function OnEncrypted(m: Mail, s: Session): Session {
    Say(s, Ehlo(m.domain), Encrypted, Auth).(handshaking := false, rounds := s.rounds + 1)
  }

  function React(m: Mail): (Session, Event) -> Session {
    (s: Session, e: Event) =>
      match e
      case ReadyRead(r) => OnReply(m, s, r)
      case Error => s.(open := false)
      case EncryptionReady => OnEncrypted(m, s)
  }

  /** Nothing is handled once the socket is closed; encryption is waited for after it was asked for, and
      comes only after the handshake was started. */
  predicate Handled(m: Mail, s: Session, e: Event) {
    s.open && (e.EncryptionReady? ==> m.connectionType == StartTls && s.stage == Tls && s.handshaking)
  }

  function Enabled(m: Mail): (Session, Event) -> bool { (s: Session, e: Event) => Handled(m, s, e) }

  ghost predicate Reachable(m: Mail, s: Session) {
    exists run :: Valid(Enabled(m), React(m), Start(m), run) && After(React(m), Start(m), run) == s
  }

  // ---- The script ----

  function Named(recipients: seq<string>): (r: seq<Sent>)
    ensures |r| == |recipients|
    ensures forall i :: 0 <= i < |r| ==> r[i] == Sent(RcptTo(recipients[i]), Code(250))
  {
    seq(|recipients|, i requires 0 <= i < |recipients| => Sent(RcptTo(recipients[i]), Code(250)))
  }

  /** EHLO, and as many times as the connection becomes encrypted STARTTLS and EHLO again. */
  function Opening(m: Mail, rounds: nat): (o: seq<Sent>)
    ensures |o| == 1 + 2 * rounds
  {
    if rounds == 0 then [Sent(Ehlo(m.domain), Code(220))]
    else Opening(m, rounds - 1) + [Sent(StartTlsCommand, Code(250)), Sent(Ehlo(m.domain), Encrypted)]
  }

  function Login(m: Mail): seq<Sent> {
    [Sent(AuthLogin, Code(250)), Sent(UserName(m.user), Code(334)), Sent(Password(m.password), Code(334)),
     Sent(MailFrom(m.sender), Code(235))]
  }

  function Delivery(m: Mail): seq<Sent> {
    [Sent(Data, Code(250)), Sent(Message(m.message), Code(354)), Sent(Quit, Code(250))]
  }

  /** What follows the opening. */
  function Rest(m: Mail): (b: seq<Sent>)
    ensures |b| == 7 + |Recipients(m)|
  {
    Login(m) + Named(Recipients(m)) + Delivery(m)
  }

  /** The whole dialogue, each command with the reply it must follow. */
  function Script(m: Mail, rounds: nat): (t: seq<Sent>)
    ensures |t| == 8 + 2 * rounds + |Recipients(m)|
  {
    Opening(m, rounds) + Rest(m)
  }

  // ---- Invariant ----

  /** How much of what follows the opening has been said in a stage with so many recipients left. */
  function Offset(stage: Stage, n: nat, left: nat): int {
    match stage
    case Init => -1
    case Tls => 0
    case Auth => 0
    case User => 1
    case Pass => 2
    case FromStage => 3
    case Rcpt => 4 + n - left
    case DataStage => 4 + n
    case Body => 5 + n
    case QuitStage => 6 + n
    case Close => 7 + n
  }

  predicate BeforeEnvelope(stage: Stage) { stage.Init? || stage.Tls? || stage.Auth? || stage.User? || stage.Pass? || stage.FromStage? }

  predicate IsSuffix(left: seq<string>, all: seq<string>) { |left| <= |all| && left == all[|all| - |left|..] }

  lemma TakeFirst(left: seq<string>, all: seq<string>)
    requires IsSuffix(left, all) && left != []
    ensures IsSuffix(left[1..], all) && left[0] == all[|all| - |left|] && |left| <= |all|
  {
  }

  /** The recipients not yet named are the last ones. */
  predicate LeftOk(all: seq<string>, stage: Stage, left: seq<string>) {
    && |left| <= |all| && IsSuffix(left, all)
    && (BeforeEnvelope(stage) ==> left == all)
    && (stage == Rcpt ==> left != [] || all == [])
    && (stage.DataStage? || stage.Body? || stage.QuitStage? ==> left == [])
  }

  lemma AnswerKeepsLeft(m: Mail, all: seq<string>, stage: Stage, left: seq<string>, r: Reply)
    requires LeftOk(all, stage, left)
    ensures var a := AnswerTo(m, stage, left, r);
            && (a.Command? ==> LeftOk(all, a.next, LeftAfter(a.command, left)))
            && (a.GiveUp? ==> LeftOk(all, Close, left))
  {
    hide IsSuffix;
    if left != [] {
      TakeFirst(left, all);
    }
  }

  lemma RestAt(m: Mail, i: nat)
    requires i < |Rest(m)|
    ensures var n := |Recipients(m)|;
            Rest(m)[i] == if i < 4 then Login(m)[i]
                          else if i < 4 + n then Sent(RcptTo(Recipients(m)[i - 4]), Code(250))
                          else Delivery(m)[i - 4 - n]
  {
  }

  /** What is left of the recipients after a command. */
  function LeftAfter(c: Command, left: seq<string>): seq<string> { if c.RcptTo? && left != [] then left[1..] else left }

  /** The answer, if it is a command beyond the opening, is the next one of the script. */
  ghost predicate IsNext(m: Mail, stage: Stage, left: seq<string>, r: Reply) {
    var a, n, i := AnswerTo(m, stage, left, r), |Recipients(m)|, Offset(stage, |Recipients(m)|, |left|);
    a.Command? && !a.next.Tls? ==>
      && !a.next.Init? && 0 <= i < |Rest(m)|
      && Offset(a.next, n, |LeftAfter(a.command, left)|) == i + 1
      && Sent(a.command, Code(r.code)) == Rest(m)[i]
  }

  lemma RecipientIsNext(m: Mail, left: seq<string>, r: Reply)
    requires LeftOk(Recipients(m), Rcpt, left) && left != []
    ensures IsNext(m, Rcpt, left, r)
  {
    hide Rest, Recipients, IsSuffix;
    RestAt(m, Offset(Rcpt, |Recipients(m)|, |left|));
    TakeFirst(left, Recipients(m));
  }

  lemma OtherIsNext(m: Mail, stage: Stage, left: seq<string>, r: Reply)
    requires LeftOk(Recipients(m), stage, left) && !stage.Init? && !stage.Tls? && (stage.Rcpt? ==> left == [])
    ensures IsNext(m, stage, left, r)
  {
    hide Rest, Recipients, IsSuffix;
    var i := Offset(stage, |Recipients(m)|, |left|);
    if AnswerTo(m, stage, left, r).Command? {
      RestAt(m, i);
    }
  }

  lemma AnswerIsNext(m: Mail, stage: Stage, left: seq<string>, r: Reply)
    requires LeftOk(Recipients(m), stage, left) && !stage.Init? && !stage.Tls?
    ensures IsNext(m, stage, left, r)
  {
    hide IsNext, LeftOk;
    if stage.Rcpt? && left != [] {
      RecipientIsNext(m, left, r);
    } else {
      OtherIsNext(m, stage, left, r);
    }
  }

  /** An open dialogue has said the script up to where its stage is. */
  ghost predicate Said(m: Mail, s: Session) {
    var i := Offset(s.stage, |Recipients(m)|, |s.left|);
    if s.stage.Init? then s.sent == [] && s.rounds == 0
    else if s.stage.Tls? then
      s.sent == Opening(m, s.rounds) + [Sent(StartTlsCommand, Code(250))] && m.connectionType == StartTls
    else
      0 <= i <= |Rest(m)| && s.sent == Opening(m, s.rounds) + Rest(m)[..i]
  }

  ghost predicate PrefixOfScript(m: Mail, sent: seq<Sent>) {
    exists k :: sent <= Script(m, k) && (k > 0 ==> m.connectionType == StartTls)
  }

  ghost predicate Inv(m: Mail, s: Session) {
    && LeftOk(Recipients(m), s.stage, s.left)
    && (s.open ==> Said(m, s))
    && PrefixOfScript(m, s.sent)
    && (s.result ==> !s.open && s.sent == Script(m, s.rounds))
    && (s.rounds > 0 ==> m.connectionType == StartTls)
  }

  /** One more command of the script. */
  lemma SayNext(opening: seq<Sent>, rest: seq<Sent>, i: nat)
    requires i < |rest|
    ensures opening + rest[..i] + [rest[i]] == opening + rest[..i + 1]
  {
  }

  lemma SaidIsPrefix(m: Mail, s: Session)
    requires Said(m, s) && (s.rounds > 0 ==> m.connectionType == StartTls)
    ensures PrefixOfScript(m, s.sent)
  {
    var k := if s.stage == Tls then s.rounds + 1 else s.rounds;
    assert s.sent <= Script(m, k);
  }

  lemma ReplyKeepsSaid(m: Mail, s: Session, r: Reply)
    requires s.open && LeftOk(Recipients(m), s.stage, s.left) && Said(m, s)
    ensures var t := OnReply(m, s, r); t.open ==> Said(m, t)
  {
    hide IsSuffix, Recipients;
    var t := OnReply(m, s, r);
    var a := AnswerTo(m, s.stage, s.left, r);
    if a.Command? && !s.stage.Init? && !s.stage.Tls? && !a.next.Tls? {
      AnswerIsNext(m, s.stage, s.left, r);
      SayNext(Opening(m, s.rounds), Rest(m), Offset(s.stage, |Recipients(m)|, |s.left|));
      hide AnswerTo, Rest, Opening, Offset, LeftAfter, LeftOk;
    } else {
      assert Rest(m)[..0] == [] && Opening(m, 0) == [Sent(Ehlo(m.domain), Code(220))];
      hide Rest, Opening, LeftOk;
    }
  }

  /** The whole script has been said in the last stage, and in no other. */
  lemma AllSaidIffClose(m: Mail, s: Session)
    requires Said(m, s) && LeftOk(Recipients(m), s.stage, s.left)
    ensures s.stage.Close? <==> s.sent == Script(m, s.rounds)
  {
    hide Opening, Rest, Recipients, LeftOk;
    var rest, script := Rest(m), Script(m, s.rounds);
    assert script == Opening(m, s.rounds) + rest;
    assert rest[..|rest|] == rest;
    hide Script;
    if !s.stage.Close? {
      assert |s.sent| < |script|;
    }
  }

  lemma AnswerSends(m: Mail, s: Session, r: Reply)
    requires s.open
    ensures var t := OnReply(m, s, r);
            && t.rounds == s.rounds && (t.result <==> s.result || s.stage.Close?)
            && (t.open || t.sent == s.sent) && (s.stage.Close? ==> !t.open)
            && LeftStays(m, s, r)
  {
    hide LeftAfter;
  }

  predicate LeftStays(m: Mail, s: Session, r: Reply) {
    var a, t := AnswerTo(m, s.stage, s.left, r), OnReply(m, s, r);
    if a.Command? then t.stage == a.next && t.left == LeftAfter(a.command, s.left)
    else t.left == s.left && (a.GiveUp? ==> t.stage == Close) && (!a.GiveUp? ==> t.stage == s.stage)
  }

  lemma ReplyKeepsInv(m: Mail, s: Session, r: Reply)
    requires s.open && Inv(m, s)
    ensures Inv(m, OnReply(m, s, r))
  {
    var t := OnReply(m, s, r);
    AnswerKeepsLeft(m, Recipients(m), s.stage, s.left, r);
    ReplyKeepsSaid(m, s, r);
    AllSaidIffClose(m, s);
    AnswerSends(m, s, r);
    assert LeftOk(Recipients(m), t.stage, t.left) by {
      hide LeftOk, Said, PrefixOfScript, OnReply;
    }
    hide LeftOk, Said, PrefixOfScript, OnReply, AnswerTo, LeftAfter, Recipients;
    if t.open {
      SaidIsPrefix(m, t);
    }
  }

  lemma EncryptedKeepsInv(m: Mail, s: Session)
    requires Inv(m, s) && Handled(m, s, EncryptionReady)
    ensures Inv(m, OnEncrypted(m, s))
  {
    var t := OnEncrypted(m, s);
    assert Rest(m)[..0] == [];
    Assoc(Opening(m, s.rounds), [Sent(StartTlsCommand, Code(250))], [Sent(Ehlo(m.domain), Encrypted)]);
    assert Opening(m, t.rounds) == Opening(m, s.rounds) + [Sent(StartTlsCommand, Code(250)), Sent(Ehlo(m.domain), Encrypted)];
    hide IsSuffix, Recipients, Opening, Rest;
    SaidIsPrefix(m, t);
    hide PrefixOfScript;
  }

  lemma StepKeepsInv(m: Mail, s: Session, e: Event)
    requires Inv(m, s) && Handled(m, s, e)
    ensures Inv(m, React(m)(s, e))
  {
    match e
    case ReadyRead(r) => ReplyKeepsInv(m, s, r);
    case EncryptionReady => EncryptedKeepsInv(m, s);
    case Error =>
      hide LeftOk, Said, PrefixOfScript;
  }

  lemma ReachableInv(m: Mail, s: Session)
    requires Reachable(m, s)
    ensures Inv(m, s)
  {
    var run :| Valid(Enabled(m), React(m), Start(m), run) && After(React(m), Start(m), run) == s;
    assert [] <= Script(m, 0);
    assert Inv(m, Start(m));
    hide Inv, OnReply, OnEncrypted;
    forall t: Session, e: Event | Inv(m, t) && Enabled(m)(t, e) ensures Inv(m, React(m)(t, e)) {
      StepKeepsInv(m, t, e);
    }
    Invariant(Enabled(m), React(m), t => Inv(m, t), Start(m), run);
  }

  // ---- Results ----

  /** Whatever the server replies, what is sent is a first part of the script, each command on the reply
      it must follow; and a dialogue that succeeded has sent the whole script. */
  lemma TraceFollowsScript(m: Mail, s: Session)
    requires Reachable(m, s)
    ensures exists k :: s.sent <= Script(m, k) && (k > 0 ==> m.connectionType == StartTls)
    ensures s.result ==> !s.open && s.sent == Script(m, s.rounds)
  {
    ReachableInv(m, s);
  }

  /** Once the whole script is sent, any reply ends the dialogue with success; nothing else does. */
  lemma SuccessIsReplyToQuit(m: Mail, s: Session, r: Reply)
    requires Reachable(m, s) && s.open
    ensures OnReply(m, s, r).result <==> s.sent == Script(m, s.rounds)
    ensures OnReply(m, s, r).result ==> !OnReply(m, s, r).open
  {
    ReachableInv(m, s);
    AllSaidIffClose(m, s);
    AnswerSends(m, s, r);
    hide LeftOk, Said, PrefixOfScript, OnReply, AnswerTo, LeftAfter, Recipients, Script;
  }

  // ---- What is answered ----

  predicate LastIsEhlo(s: Session) { s.sent != [] && s.sent[|s.sent| - 1].command.Ehlo? }

  lemma {:induction false} OpeningEndsWithEhlo(m: Mail, rounds: nat)
    ensures var o := Opening(m, rounds); o[|o| - 1].command == Ehlo(m.domain)
  {
  }

  /** EHLO was the last command exactly if the opening, or its next round, has to go on. */
  lemma AuthIffEhlo(m: Mail, s: Session)
    requires LeftOk(Recipients(m), s.stage, s.left) && Said(m, s)
    ensures s.stage.Auth? <==> LastIsEhlo(s)
  {
    var i := Offset(s.stage, |Recipients(m)|, |s.left|);
    OpeningEndsWithEhlo(m, s.rounds);
    if i > 0 {
      RestAt(m, i - 1);
    }
    assert Rest(m)[..0] == [];
    hide Opening, Rest, Recipients, IsSuffix;
  }

  /** A 250 to EHLO is answered with STARTTLS exactly if the server offers it and the connection is to use
      it, and otherwise with AUTH LOGIN. */
  lemma EhloIsAnswered(m: Mail, s: Session, r: Reply)
    requires Reachable(m, s) && s.open && LastIsEhlo(s) && r.code == 250
    ensures var next := if r.offersStartTls && m.connectionType == StartTls then StartTlsCommand else AuthLogin;
            OnReply(m, s, r).sent == s.sent + [Sent(next, Code(250))] && OnReply(m, s, r).open
  {
    ReachableInv(m, s);
    AuthIffEhlo(m, s);
    hide LeftOk, Said, PrefixOfScript, Recipients, LastIsEhlo;
  }

  /** The next command of the script is not answered to but with the reply it must follow. */
  lemma NextIsAnswered(m: Mail, stage: Stage, left: seq<string>, r: Reply, i: nat)
    requires LeftOk(Recipients(m), stage, left) && !stage.Init? && !stage.Tls?
    requires i == Offset(stage, |Recipients(m)|, |left|) && i < |Rest(m)|
    requires i == 0 ==> !(r.offersStartTls && m.connectionType == StartTls)
    ensures var a := AnswerTo(m, stage, left, r);
            if Code(r.code) == Rest(m)[i].cause then a.Command? && !a.next.Tls? else a.GiveUp?
  {
    hide Rest, Recipients, IsSuffix;
    RestCause(m, i);
  }

  /** The codes of the replies that the commands after the opening must follow. */
  lemma RestCause(m: Mail, i: nat)
    requires i < |Rest(m)|
    ensures var n := |Recipients(m)|;
            Rest(m)[i].cause == Code(if i == 1 || i == 2 then 334 else if i == 3 then 235 else if i == 5 + n then 354 else 250)
  {
    RestAt(m, i);
    hide Rest;
  }

  ghost predicate SaidUpTo(m: Mail, s: Session, i: nat) { i <= |Rest(m)| && s.sent == Opening(m, s.rounds) + Rest(m)[..i] }

  lemma SameRest(opening: seq<Sent>, a: seq<Sent>, b: seq<Sent>)
    requires opening + a == opening + b
    ensures a == b
  {
    assert a == (opening + a)[|opening|..] && b == (opening + b)[|opening|..];
  }

  lemma LoginFirst(m: Mail, i: nat)
    requires i <= |Rest(m)|
    ensures Rest(m)[..i] != [Sent(StartTlsCommand, Code(250))]
  {
    if i > 0 {
      assert Rest(m)[..i][0] == Login(m)[0];
    }
  }

  lemma SaidUpToIs(m: Mail, s: Session, i: nat)
    requires Inv(m, s) && s.open && SaidUpTo(m, s, i)
    ensures !s.stage.Init? && !s.stage.Tls? && i == Offset(s.stage, |Recipients(m)|, |s.left|)
  {
    LoginFirst(m, i);
    var opening := Opening(m, s.rounds);
    hide Rest, Opening, Recipients, LeftOk, PrefixOfScript;
    if s.stage.Tls? {
      SameRest(opening, Rest(m)[..i], [Sent(StartTlsCommand, Code(250))]);
    }
  }

  /** Once the opening is over, the reply that the next command must follow leads to that command, and any
      other reply ends the dialogue without success and without another command. A first reply that
      offers STARTTLS where it is to be used is the only exception: it starts another round. */
  lemma DialogueGoesOn(m: Mail, s: Session, r: Reply, i: nat)
    requires Reachable(m, s) && s.open && SaidUpTo(m, s, i) && i < |Rest(m)|
    requires i == 0 ==> !(r.offersStartTls && m.connectionType == StartTls)
    ensures var t := OnReply(m, s, r);
            && t.rounds == s.rounds
            && (if Code(r.code) == Rest(m)[i].cause then t.open && t.sent == s.sent + [Rest(m)[i]] && SaidUpTo(m, t, i + 1)
                else !t.open && !t.result && t.sent == s.sent)
  {
    ReachableInv(m, s);
    SaidUpToIs(m, s, i);
    NextIsAnswered(m, s.stage, s.left, r, i);
    AnswerIsNext(m, s.stage, s.left, r);
    Reaction(m, s, r);
    SayNext(Opening(m, s.rounds), Rest(m), i);
    hide AnswerTo, OnReply, Opening, Rest, Offset, Recipients, LeftOk, Said, PrefixOfScript;
  }

  // ---- No login before encryption ----

  /** A server that offers STARTTLS in its reply to the first EHLO. */
  predicate Offering(m: Mail, s: Session, e: Event) {
    Handled(m, s, e) &&
    (e.ReadyRead? && e.reply.code == 250 && s.sent == [Sent(Ehlo(m.domain), Code(220))] ==> e.reply.offersStartTls)
  }

  function EnabledOffering(m: Mail): (Session, Event) -> bool { (s: Session, e: Event) => Offering(m, s, e) }

  predicate IsLogin(c: Command) { c.AuthLogin? || c.UserName? || c.Password? }

  ghost predicate LoginAfterEncryption(sent: seq<Sent>) {
    forall j :: 0 <= j < |sent| && IsLogin(sent[j].command) ==> exists k :: 0 <= k < j && sent[k].cause == Encrypted
  }

  /** Before encryption nothing but the opening is said. */
  ghost predicate Guarded(m: Mail, s: Session) {
    && LoginAfterEncryption(s.sent)
    && (s.open && s.rounds == 0 ==> s.stage.Init? || s.stage.Auth? || s.stage.Tls?)
    && (s.rounds > 0 ==> exists k :: 0 <= k < |s.sent| && s.sent[k].cause == Encrypted)
  }

  lemma OneMoreSent(sent: seq<Sent>, next: Sent)
    requires LoginAfterEncryption(sent)
    requires IsLogin(next.command) ==> exists k :: 0 <= k < |sent| && sent[k].cause == Encrypted
    ensures LoginAfterEncryption(sent + [next])
    ensures (exists k :: 0 <= k < |sent| && sent[k].cause == Encrypted) ==>
              exists k :: 0 <= k < |sent + [next]| && (sent + [next])[k].cause == Encrypted
  {
    var all := sent + [next];
    forall j | 0 <= j < |all| && IsLogin(all[j].command) ensures exists k :: 0 <= k < j && all[k].cause == Encrypted {
      var k :| 0 <= k < |sent| && (j < |sent| ==> k < j) && sent[k].cause == Encrypted;
      assert all[k] == sent[k];
    }
    if k :| 0 <= k < |sent| && sent[k].cause == Encrypted {
      assert all[k].cause == Encrypted;
    }
  }

  lemma EncryptedKeepsGuarded(m: Mail, s: Session)
    requires Guarded(m, s)
    ensures Guarded(m, OnEncrypted(m, s))
  {
    EncryptedSends(m, s);
    OneMoreSent(s.sent, Sent(Ehlo(m.domain), Encrypted));
    hide OnEncrypted, LoginAfterEncryption;
    var t := OnEncrypted(m, s);
    assert t.sent[|s.sent|].cause == Encrypted;
  }

  lemma ReplyKeepsGuarded(m: Mail, s: Session, r: Reply)
    requires m.connectionType == StartTls && s.open && Guarded(m, s)
    requires s.rounds == 0 && s.stage.Auth? && r.code == 250 ==> r.offersStartTls
    ensures Guarded(m, OnReply(m, s, r))
  {
    Reaction(m, s, r);
    AnswersGuarded(m, s.stage, s.left, r);
    hide OnReply, LeftAfter, LoginAfterEncryption, AnswerTo;
    var a := AnswerTo(m, s.stage, s.left, r);
    if a.Command? {
      OneMoreSent(s.sent, Sent(a.command, Code(r.code)));
    }
  }

  lemma AnswersGuarded(m: Mail, stage: Stage, left: seq<string>, r: Reply)
    ensures var a := AnswerTo(m, stage, left, r);
            && (stage.Auth? && r.code == 250 && r.offersStartTls && m.connectionType == StartTls ==>
                  a.Command? && a.next.Tls? && !IsLogin(a.command))
            && (a.Command? && (stage.Init? || stage.Tls?) ==> a.next.Auth? && !IsLogin(a.command))
            && (a.Command? && stage.Auth? ==> r.code == 250)
  {
  }

  lemma StepKeepsGuarded(m: Mail, s: Session, e: Event)
    requires m.connectionType == StartTls && Inv(m, s) && Guarded(m, s) && Offering(m, s, e)
    ensures Inv(m, React(m)(s, e)) && Guarded(m, React(m)(s, e))
  {
    StepKeepsInv(m, s, e);
    hide OnReply, OnEncrypted;
    match e
    case EncryptionReady => EncryptedKeepsGuarded(m, s);
    case ReadyRead(r) =>
      if s.rounds == 0 && s.stage.Auth? {
        FirstEhloOnly(m, s);
      }
      ReplyKeepsGuarded(m, s, r);
    case Error =>
      hide Inv, LoginAfterEncryption;
  }

  lemma FirstEhloOnly(m: Mail, s: Session)
    requires Inv(m, s) && s.open && s.rounds == 0 && s.stage.Auth?
    ensures s.sent == [Sent(Ehlo(m.domain), Code(220))]
  {
    assert Rest(m)[..0] == [];
    hide Rest, LeftOk, PrefixOfScript;
  }

  /** Where the connection is to use STARTTLS and the server offers it, no login command is sent before the
      connection is encrypted. */
  lemma NoLoginBeforeEncryption(m: Mail, run: seq<Event>)
    requires m.connectionType == StartTls && Valid(EnabledOffering(m), React(m), Start(m), run)
    ensures LoginAfterEncryption(After(React(m), Start(m), run).sent)
  {
    assert [] <= Script(m, 0);
    assert Inv(m, Start(m)) && Guarded(m, Start(m));
    hide Inv, Guarded, Offering, OnReply, OnEncrypted;
    var inv := (t: Session) => Inv(m, t) && Guarded(m, t);
    forall t: Session, e: Event | inv(t) && EnabledOffering(m)(t, e) ensures inv(React(m)(t, e)) {
      StepKeepsGuarded(m, t, e);
    }
    Invariant(EnabledOffering(m), React(m), inv, Start(m), run);
    assert inv(After(React(m), Start(m), run));
    GuardedMeans(m, After(React(m), Start(m), run));
  }

  lemma GuardedMeans(m: Mail, s: Session)
    ensures Guarded(m, s) ==> LoginAfterEncryption(s.sent)
  {
  }

  // ---- The whole dialogue ----

  /** The server's part in the opening with so many rounds of encryption. */
  function OpeningReplies(rounds: nat): seq<Event> {
    if rounds == 0 then [ReadyRead(Reply(220, false))]
    else OpeningReplies(rounds - 1) + [ReadyRead(Reply(250, true)), ReadyRead(Reply(220, false)), EncryptionReady]
  }

  /** Replies with the codes that the commands after the opening must follow; the first does not lead to
      another round. */
  predicate Expected(m: Mail, replies: seq<Reply>) {
    && |replies| == |Rest(m)|
    && (forall i :: 0 <= i < |replies| ==> Code(replies[i].code) == Rest(m)[i].cause)
    && !(replies[0].offersStartTls && m.connectionType == StartTls)
  }

  function Reads(replies: seq<Reply>): seq<Event> { seq(|replies|, i requires 0 <= i < |replies| => ReadyRead(replies[i])) }

  ghost predicate Leads(m: Mail, run: seq<Event>, s: Session) {
    Valid(Enabled(m), React(m), Start(m), run) && After(React(m), Start(m), run) == s
  }

  lemma LeadsOn(m: Mail, run: seq<Event>, s: Session, e: Event)
    requires Leads(m, run, s) && Handled(m, s, e)
    ensures Leads(m, run + [e], React(m)(s, e)) && Reachable(m, s) && Reachable(m, React(m)(s, e))
  {
    hide Handled;
    Extend(Enabled(m), React(m), Start(m), run, e);
  }

  /** The opening with any number of rounds can come about. */
  lemma {:induction false} OpeningComesAbout(m: Mail, rounds: nat) returns (s: Session)
    requires rounds > 0 ==> m.connectionType == StartTls
    ensures Leads(m, OpeningReplies(rounds), s)
    ensures s.stage == Auth && s.open && s.rounds == rounds && s.sent == Opening(m, rounds)
  {
    if rounds == 0 {
      var r := Reply(220, false);
      LeadsOn(m, [], Start(m), ReadyRead(r));
      assert [] + [ReadyRead(r)] == [ReadyRead(r)];
      s := OnReply(m, Start(m), r);
    } else {
      var s0 := OpeningComesAbout(m, rounds - 1);
      s := OneRound(m, OpeningReplies(rounds - 1), s0);
      Assoc(s0.sent, [Sent(StartTlsCommand, Code(250))], [Sent(Ehlo(m.domain), Encrypted)]);
    }
  }

  lemma OneRound(m: Mail, run: seq<Event>, s: Session) returns (t: Session)
    requires m.connectionType == StartTls && Leads(m, run, s) && s.stage == Auth && s.open
    ensures Leads(m, run + [ReadyRead(Reply(250, true)), ReadyRead(Reply(220, false)), EncryptionReady], t)
    ensures t.stage == Auth && t.open && t.rounds == s.rounds + 1
    ensures t.sent == s.sent + [Sent(StartTlsCommand, Code(250))] + [Sent(Ehlo(m.domain), Encrypted)]
  {
    var offer, ready := ReadyRead(Reply(250, true)), ReadyRead(Reply(220, false));
    var s1 := OnReply(m, s, offer.reply);
    var s2 := OnReply(m, s1, ready.reply);
    t := OnEncrypted(m, s2);
    LeadsOn(m, run, s, offer);
    LeadsOn(m, run + [offer], s1, ready);
    LeadsOn(m, run + [offer] + [ready], s2, EncryptionReady);
    assert run + [offer, ready, EncryptionReady] == run + [offer] + [ready] + [EncryptionReady];
    hide Leads, Reachable;
  }

  lemma {:induction false} RestComesAbout(m: Mail, rounds: nat, replies: seq<Reply>, i: nat) returns (s: Session)
    requires rounds > 0 ==> m.connectionType == StartTls
    requires Expected(m, replies) && i <= |replies|
    ensures Leads(m, OpeningReplies(rounds) + Reads(replies[..i]), s)
    ensures s.open && s.rounds == rounds && SaidUpTo(m, s, i)
    decreases i
  {
    hide Leads, Reachable, OpeningReplies, Opening, Rest, OnReply;
    if i == 0 {
      s := OpeningComesAbout(m, rounds);
      assert OpeningReplies(rounds) + Reads(replies[..0]) == OpeningReplies(rounds);
      assert Rest(m)[..0] == [] && Opening(m, rounds) + [] == Opening(m, rounds);
    } else {
      var s0 := RestComesAbout(m, rounds, replies, i - 1);
      var run, r := OpeningReplies(rounds) + Reads(replies[..i - 1]), replies[i - 1];
      LeadsOn(m, run, s0, ReadyRead(r));
      DialogueGoesOn(m, s0, r, i - 1);
      s := OnReply(m, s0, r);
      assert Reads(replies[..i]) == Reads(replies[..i - 1]) + [ReadyRead(r)];
      Assoc(OpeningReplies(rounds), Reads(replies[..i - 1]), [ReadyRead(r)]);
    }
  }

  /** For every mail and any number of rounds of encryption: the replies the script must follow, and any
      reply after them, send the whole script and end in success. */
  lemma MailIsSent(m: Mail, rounds: nat, replies: seq<Reply>, last: Reply)
    requires rounds > 0 ==> m.connectionType == StartTls
    requires Expected(m, replies)
    ensures var run := OpeningReplies(rounds) + Reads(replies) + [ReadyRead(last)];
            var s := After(React(m), Start(m), run);
            Valid(Enabled(m), React(m), Start(m), run) && s.result && !s.open && s.sent == Script(m, rounds)
  {
    var n := |replies|;
    hide Reachable, OpeningReplies, Opening, OnReply, Rest;
    var s := RestComesAbout(m, rounds, replies, n);
    assert replies[..n] == replies && Rest(m)[..n] == Rest(m);
    LeadsOn(m, OpeningReplies(rounds) + Reads(replies), s, ReadyRead(last));
    SuccessIsReplyToQuit(m, s, last);
    ReachableInv(m, OnReply(m, s, last));
    AnswerSends(m, s, last);
    hide LeftOk, Said, PrefixOfScript, Script;
  }

  /** The recipients are named in the order to, cc, bcc, each once. */
  lemma RecipientsAreNamed(m: Mail, i: nat)
    ensures i < |m.to| ==> Rest(m)[4 + i] == Sent(RcptTo(m.to[i]), Code(250))
    ensures i < |m.cc| ==> Rest(m)[4 + |m.to| + i] == Sent(RcptTo(m.cc[i]), Code(250))
    ensures i < |m.bcc| ==> Rest(m)[4 + |m.to| + |m.cc| + i] == Sent(RcptTo(m.bcc[i]), Code(250))
    ensures |Rest(m)| == 4 + |m.to| + |m.cc| + |m.bcc| + 3
  {
    if i < |m.to| {
      RestAt(m, 4 + i);
    }
    if i < |m.cc| {
      RestAt(m, 4 + |m.to| + i);
    }
    if i < |m.bcc| {
      RestAt(m, 4 + |m.to| + |m.cc| + i);
    }
    hide Rest;
  }

  // ---- The client ----

  lemma EncryptedSends(m: Mail, s: Session)
    ensures OnEncrypted(m, s) ==
            Session(Auth, s.open, s.result, s.left, false, s.sent + [Sent(Ehlo(m.domain), Encrypted)], s.rounds + 1)
  {
  }

  lemma Reaction(m: Mail, s: Session, r: Reply)
    ensures var a := AnswerTo(m, s.stage, s.left, r);
            OnReply(m, s, r) ==
              if a.Command? then
                s.(sent := s.sent + [Sent(a.command, Code(r.code))], stage := a.next, left := LeftAfter(a.command, s.left))
              else if a.Encrypt? then s.(handshaking := true)
              else if a.Finish? then s.(result := true, open := false)
              else s.(stage := Close, open := false)
  {
    hide AnswerTo, LeftAfter;
  }

  class SmtpClient {
    const mail: Mail
    var state: Stage
    var isOpen: bool
    var result: bool
    var mutableTo: seq<string>
    ghost var handshaking: bool
    ghost var sent: seq<Sent>
    ghost var rounds: nat

    ghost function View(): Session
      reads this
    {
      Session(state, isOpen, result, mutableTo, handshaking, sent, rounds)
    }

    constructor (mail: Mail)
      ensures this.mail == mail && View() == Start(mail)
    {
      this.mail := mail;
      state, isOpen, result := Init, true, false;
      mutableTo := mail.to + mail.cc + mail.bcc;
      handshaking, sent, rounds := false, [], 0;
    }

    method Write(toSend: Command, ghost cause: Cause)
      modifies this`sent
      ensures sent == old(sent) + [Sent(toSend, cause)]
    {
      sent := sent + [Sent(toSend, cause)];
    }

    method OnReadyRead(reply: Reply)
      requires Inv(mail, View()) && isOpen
      modifies this
      ensures View() == OnReply(mail, old(View()), reply) && Inv(mail, View())
    {
      ReplyKeepsInv(mail, View(), reply);
      Reaction(mail, View(), reply);
      hide Inv, OnReply, AnswerTo;
      match AnswerTo(mail, state, mutableTo, reply)
      case Command(toSend, next) =>
        if toSend.RcptTo? && mutableTo != [] {
          mutableTo := mutableTo[1..];
        }
        state := next;
        Write(toSend, Code(reply.code));
      case Encrypt =>
        handshaking := true;
      case Finish =>
        result, isOpen := true, false;
      case GiveUp =>
        state, isOpen := Close, false;
    }

    method OnError()
      requires Inv(mail, View()) && isOpen
      modifies this
      ensures View() == old(View()).(open := false) && Inv(mail, View())
    {
      StepKeepsInv(mail, View(), Error);
      hide Inv;
      isOpen := false;
    }

    method OnEncryptionReady()
      requires Inv(mail, View()) && Handled(mail, View(), EncryptionReady)
      modifies this
      ensures View() == OnEncrypted(mail, old(View())) && Inv(mail, View())
    {
      EncryptedKeepsInv(mail, View());
      EncryptedSends(mail, View());
      hide Inv, OnEncrypted, Handled;
      state := Auth;
      Write(Ehlo(mail.domain), Encrypted);
      handshaking, rounds := false, rounds + 1;
    }
  }
}
