/**
 Refresh tokens: rotation, reuse detection, logout and password reset, each call taken as one step.
 A token's row number stands for the token; the hash under which it is stored is taken as one-to-one.
 */
module Tokens {
  import opened Wrappers

  datatype Token = Token(user: int, org: Option<int>, expires: int, revoked: Option<int>, replaced: Option<nat>)

  datatype Reset = Reset(user: int, expires: int, used: bool)

  /** `active` holds the users who exist and are active, `users` those who exist. */
  datatype Rows = Rows(tokens: seq<Token>, resets: seq<Reset>, users: set<int>, active: set<int>)

  datatype Settings = Settings(ttl: int, grace: int, resetTtl: int)

  datatype Verdict = Accepted(successor: nat) | Invalid | Expired | Reused | AlreadyUsed

  // ---------------------------------------------------------------- what one call does

  function Issued(s: Rows, c: Settings, user: int, org: Option<int>, now: int): Rows {
    s.(tokens := s.tokens + [Token(user, org, now + c.ttl, None, None)])
  }

  function Revoke(t: Token, now: int): Token {
    if t.revoked.None? then t.(revoked := Some(now)) else t
  }

  /** Every live token of `user` is revoked. */
  function RevokeChain(tokens: seq<Token>, user: int, now: int): (r: seq<Token>)
    ensures |r| == |tokens|
    ensures forall i | 0 <= i < |tokens| :: r[i] == if tokens[i].user == user then Revoke(tokens[i], now) else tokens[i]
  {
    seq(|tokens|, i requires 0 <= i < |tokens| => if tokens[i].user == user then Revoke(tokens[i], now) else tokens[i])
  }

  /** Expiry is looked at before reuse, reuse before the user. */
  function Judge(s: Rows, c: Settings, id: int, now: int): Verdict {
    if id < 0 || id >= |s.tokens| then Invalid
    else
      var t := s.tokens[id];
      if t.expires < now then Expired
      else if t.revoked.Some? then
        if t.replaced.Some? && now - t.revoked.value <= c.grace then AlreadyUsed else Reused
      else if t.user !in s.active then Invalid
      else Accepted(|s.tokens|)
  }

  function Refreshed(s: Rows, c: Settings, id: int, now: int): Rows {
    match Judge(s, c, id, now)
    case Accepted(j) =>
      assert 0 <= id < |s.tokens|;
      var t := s.tokens[id];
      var s1 := Issued(s, c, t.user, t.org, now);
      s1.(tokens := s1.tokens[id := t.(revoked := Some(now), replaced := Some(j))])
    case Reused => s.(tokens := RevokeChain(s.tokens, s.tokens[id].user, now))
    case _ => s
  }

  function LoggedOut(s: Rows, id: int, now: int): Rows {
    if 0 <= id < |s.tokens| then s.(tokens := s.tokens[id := Revoke(s.tokens[id], now)]) else s
  }

  predicate ResetValid(s: Rows, r: int, now: int) {
    0 <= r < |s.resets| && !s.resets[r].used && s.resets[r].expires >= now && s.resets[r].user in s.users
  }

  function PasswordReset(s: Rows, r: int, now: int): Rows {
    if !ResetValid(s, r, now) then s
    else s.(resets := s.resets[r := s.resets[r].(used := true)], tokens := RevokeChain(s.tokens, s.resets[r].user, now))
  }

  // ---------------------------------------------------------------- runs

  datatype Call =
    | Issue(user: int, org: Option<int>)
    | Refresh(id: int)
    | Logout(id: int)
    | AskReset(user: int)
    | DoReset(reset: int)
    | SetActive(user: int, active: bool)

  /** A call and the clock when it runs. */
  datatype Step = Step(call: Call, now: int)

  function Do(s: Rows, c: Settings, e: Step): Rows {
    match e.call
    case Issue(user, org) => Issued(s, c, user, org, e.now)
    case Refresh(id) => Refreshed(s, c, id, e.now)
    case Logout(id) => LoggedOut(s, id, e.now)
    case AskReset(user) => s.(resets := s.resets + [Reset(user, e.now + c.resetTtl, false)])
    case DoReset(r) => PasswordReset(s, r, e.now)
    case SetActive(user, active) => s.(active := if active then s.active + {user} else s.active - {user}, users := s.users + {user})
  }

  function After(s: Rows, c: Settings, run: seq<Step>): Rows
    decreases |run|
  {
    if run == [] then s else After(Do(s, c, run[0]), c, run[1..])
  }

  /** The tokens a run accepted, in order. */
  function AcceptedIn(s: Rows, c: Settings, run: seq<Step>): seq<int>
    decreases |run|
  {
    if run == [] then []
    else (if run[0].call.Refresh? && Judge(s, c, run[0].call.id, run[0].now).Accepted? then [run[0].call.id] else [])
         + AcceptedIn(Do(s, c, run[0]), c, run[1..])
  }

  // ---------------------------------------------------------------- the invariant

  /** A link goes from a revoked token to a later one of the same user and organization scope. */
  predicate LinkSound(tokens: seq<Token>, i: int)
    requires 0 <= i < |tokens|
  {
    tokens[i].replaced.Some? ==>
      && tokens[i].revoked.Some?
      && i < tokens[i].replaced.value < |tokens|
      && tokens[tokens[i].replaced.value].user == tokens[i].user
      && tokens[tokens[i].replaced.value].org == tokens[i].org
  }

  /** Links are sound and no two tokens are replaced by the same one. */
  predicate Linked(tokens: seq<Token>) {
    && (forall i | 0 <= i < |tokens| :: LinkSound(tokens, i))
    && (forall i, j | 0 <= i < |tokens| && 0 <= j < |tokens| && tokens[i].replaced.Some? && tokens[i].replaced == tokens[j].replaced :: i == j)
  }

  /** From `s` to `s'` no row disappears, changes owner or comes back to life. */
  predicate Grows(s: seq<Token>, s': seq<Token>) {
    && |s| <= |s'|
    && (forall i | 0 <= i < |s| ::
          && s'[i].user == s[i].user && s'[i].org == s[i].org && s'[i].expires == s[i].expires
          && (s[i].revoked.Some? ==> s'[i] == s[i]))
  }

  /** From `t` to `t'` live tokens may have been revoked, nothing else. */
  predicate OnlyRevokes(t: seq<Token>, t': seq<Token>) {
    && |t'| == |t|
    && forall i | 0 <= i < |t| :: t'[i] == t[i] || (t[i].revoked.None? && t'[i].revoked.Some? && t'[i] == t[i].(revoked := t'[i].revoked))
  }

  lemma RevokingKeepsLinked(t: seq<Token>, t': seq<Token>)
    requires Linked(t) && OnlyRevokes(t, t')
    ensures Linked(t') && Grows(t, t')
  {
    forall i | 0 <= i < |t'| ensures LinkSound(t', i) { assert LinkSound(t, i); }
  }

  lemma IssuingKeepsLinked(t: seq<Token>, issued: Token)
    requires Linked(t) && issued.replaced.None?
    ensures Linked(t + [issued]) && Grows(t, t + [issued])
  {
    forall i | 0 <= i < |t| ensures LinkSound(t + [issued], i) { assert LinkSound(t, i); }
  }

  /** A live token has no successor yet, and the new one nobody points to. */
  lemma RotatingKeepsLinked(t: seq<Token>, id: nat, issued: Token, now: int)
    requires Linked(t) && id < |t| && t[id].revoked.None? && issued.replaced.None? && issued.user == t[id].user && issued.org == t[id].org
    ensures var t' := (t + [issued])[id := t[id].(revoked := Some(now), replaced := Some(|t|))]; Linked(t') && Grows(t, t')
  {
    var t' := (t + [issued])[id := t[id].(revoked := Some(now), replaced := Some(|t|))];
    forall i | 0 <= i < |t'| ensures LinkSound(t', i) {
      if i < |t| { assert LinkSound(t, i); }
    }
    forall i, j | 0 <= i < |t'| && 0 <= j < |t'| && t'[i].replaced.Some? && t'[i].replaced == t'[j].replaced ensures i == j {
      assert i < |t| ==> LinkSound(t, i);
      assert j < |t| ==> LinkSound(t, j);
    }
  }

  lemma RefreshKeepsLinked(s: Rows, c: Settings, id: int, now: int)
    requires Linked(s.tokens)
    ensures Linked(Refreshed(s, c, id, now).tokens) && Grows(s.tokens, Refreshed(s, c, id, now).tokens)
  {
    match Judge(s, c, id, now)
    case Accepted(_) => RotatingKeepsLinked(s.tokens, id, Token(s.tokens[id].user, s.tokens[id].org, now + c.ttl, None, None), now);
    case _ => RevokingKeepsLinked(s.tokens, Refreshed(s, c, id, now).tokens);
  }

  lemma StepKeepsLinked(s: Rows, c: Settings, e: Step)
    requires Linked(s.tokens)
    ensures Linked(Do(s, c, e).tokens) && Grows(s.tokens, Do(s, c, e).tokens)
  {
    match e.call
    case Issue(user, org) => IssuingKeepsLinked(s.tokens, Token(user, org, e.now + c.ttl, None, None));
    case Refresh(id) => RefreshKeepsLinked(s, c, id, e.now);
    case _ => RevokingKeepsLinked(s.tokens, Do(s, c, e).tokens);
  }

  lemma {:induction false} RunKeepsLinked(s: Rows, c: Settings, run: seq<Step>)
    requires Linked(s.tokens)
    ensures Linked(After(s, c, run).tokens) && Grows(s.tokens, After(s, c, run).tokens)
    decreases |run|
  {
    if run != [] {
      StepKeepsLinked(s, c, run[0]);
      RunKeepsLinked(Do(s, c, run[0]), c, run[1..]);
    }
  }

  // ---------------------------------------------------------------- chains

  /** A token and everything it was replaced by. */
  function Chain(tokens: seq<Token>, i: int): (r: seq<int>)
    requires Linked(tokens) && 0 <= i < |tokens|
    ensures |r| >= 1 && r[0] == i && forall k | 0 <= k < |r| :: i <= r[k] < |tokens|
    decreases |tokens| - i
  {
    assert LinkSound(tokens, i);
    if tokens[i].replaced.None? then [i] else [i] + Chain(tokens, tokens[i].replaced.value)
  }

  lemma {:induction false} ChainOwner(tokens: seq<Token>, i: int)
    requires Linked(tokens) && 0 <= i < |tokens|
    ensures forall k | k in Chain(tokens, i) :: tokens[k].user == tokens[i].user && tokens[k].org == tokens[i].org
    decreases |tokens| - i
  {
    assert LinkSound(tokens, i);
    if tokens[i].replaced.Some? { ChainOwner(tokens, tokens[i].replaced.value); }
  }

  ghost predicate ChainLink(tokens: seq<Token>, r: seq<int>, k: int)
    requires 0 <= k < |r| && forall j | 0 <= j < |r| :: 0 <= r[j] < |tokens|
  {
    if k == |r| - 1 then tokens[r[k]].replaced == None
    else r[k] < r[k + 1] && tokens[r[k]].revoked.Some? && tokens[r[k]].replaced == Some(r[k + 1])
  }

  lemma {:induction false} ChainOrder(tokens: seq<Token>, i: int)
    requires Linked(tokens) && 0 <= i < |tokens|
    ensures forall k | 0 <= k < |Chain(tokens, i)| :: ChainLink(tokens, Chain(tokens, i), k)
    decreases |tokens| - i
  {
    assert LinkSound(tokens, i);
    if tokens[i].replaced.Some? {
      var j := tokens[i].replaced.value;
      ChainOrder(tokens, j);
      var r, q := Chain(tokens, i), Chain(tokens, j);
      assert r == [i] + q;
      forall k | 0 <= k < |r| ensures ChainLink(tokens, r, k) {
        if k > 0 { assert ChainLink(tokens, q, k - 1) && r[k] == q[k - 1]; }
      }
    }
  }

  /** A chain is one user's and one scope's, increasing, and only its last token can be live. */
  lemma ChainShape(tokens: seq<Token>, i: int)
    requires Linked(tokens) && 0 <= i < |tokens|
    ensures var r := Chain(tokens, i);
            && (forall k | 0 <= k < |r| :: tokens[r[k]].user == tokens[i].user && tokens[r[k]].org == tokens[i].org)
            && (forall k | 0 <= k < |r| - 1 :: r[k] < r[k + 1] && tokens[r[k]].revoked.Some? && tokens[r[k]].replaced == Some(r[k + 1]))
            && tokens[r[|r| - 1]].replaced == None
  {
    ChainOwner(tokens, i);
    ChainOrder(tokens, i);
    var r := Chain(tokens, i);
    assert forall k | 0 <= k < |r| :: r[k] in r;
    forall k | 0 <= k < |r| - 1 ensures r[k] < r[k + 1] && tokens[r[k]].revoked.Some? && tokens[r[k]].replaced == Some(r[k + 1]) {
      assert ChainLink(tokens, r, k);
    }
    assert ChainLink(tokens, r, |r| - 1);
  }

  /** Chains that meet are one chain: the later start lies on the chain of the earlier one. */
  lemma {:induction false} ChainsThatMeet(tokens: seq<Token>, i: int, j: int, k: int)
    requires Linked(tokens) && 0 <= i < |tokens| && 0 <= j < |tokens|
    requires k in Chain(tokens, i) && k in Chain(tokens, j)
    ensures i in Chain(tokens, j) || j in Chain(tokens, i)
    decreases |tokens| - i + |tokens| - j
  {
    assert LinkSound(tokens, i) && LinkSound(tokens, j);
    if i == k || j == k || i == j {
    } else {
      var i', j' := tokens[i].replaced.value, tokens[j].replaced.value;
      ChainsThatMeet(tokens, i', j', k);
      if i' in Chain(tokens, j') { OnChain(tokens, i, j); } else { OnChain(tokens, j, i); }
    }
  }

  /** If `i`'s successor is on the chain after `j`, then `i` itself is on the chain of `j`. */
  lemma {:induction false} OnChain(tokens: seq<Token>, i: int, j: int)
    requires Linked(tokens) && 0 <= i < |tokens| && 0 <= j < |tokens| && tokens[i].replaced.Some? && tokens[j].replaced.Some?
    requires LinkSound(tokens, j) && tokens[i].replaced.value in Chain(tokens, tokens[j].replaced.value)
    ensures i in Chain(tokens, j)
    decreases |tokens| - j
  {
    var j' := tokens[j].replaced.value;
    if tokens[i].replaced.value != j' {
      assert LinkSound(tokens, j');
      OnChain(tokens, i, j');
    }
  }

  // ---------------------------------------------------------------- acceptance over whole runs

  /** A revoked token is never accepted again. */
  lemma {:induction false} RevokedForGood(s: Rows, c: Settings, run: seq<Step>, id: int)
    requires Linked(s.tokens) && 0 <= id < |s.tokens| && s.tokens[id].revoked.Some?
    ensures id !in AcceptedIn(s, c, run)
    decreases |run|
  {
    if run != [] {
      StepKeepsLinked(s, c, run[0]);
      RevokedForGood(Do(s, c, run[0]), c, run[1..], id);
    }
  }

  /** In every run each token is accepted at most once. */
  lemma {:induction false} AcceptedOnce(s: Rows, c: Settings, run: seq<Step>)
    requires Linked(s.tokens)
    ensures forall a, b | 0 <= a < b < |AcceptedIn(s, c, run)| :: AcceptedIn(s, c, run)[a] != AcceptedIn(s, c, run)[b]
    decreases |run|
  {
    if run != [] {
      var s1 := Do(s, c, run[0]);
      StepKeepsLinked(s, c, run[0]);
      AcceptedOnce(s1, c, run[1..]);
      if run[0].call.Refresh? && Judge(s, c, run[0].call.id, run[0].now).Accepted? {
        RevokedForGood(s1, c, run[1..], run[0].call.id);
      }
    }
  }

  /** A rotation hands over: the accepted token dies, its successor is live, the user's and scope's
      are the same, and every other row is untouched. */
  lemma RotationHandsOver(s: Rows, c: Settings, id: int, now: int)
    requires Linked(s.tokens) && Judge(s, c, id, now).Accepted?
    ensures var t, t' := s.tokens, Refreshed(s, c, id, now).tokens; var j := Judge(s, c, id, now).successor;
            && j == |t| && |t'| == |t| + 1 && Linked(t')
            && t'[id].revoked == Some(now) && t'[id].replaced == Some(j)
            && t'[j] == Token(t[id].user, t[id].org, now + c.ttl, None, None)
            && Chain(t', id) == [id, j]
            && forall i | 0 <= i < |t| && i != id :: t'[i] == t[i]
  {
    StepKeepsLinked(s, c, Step(Refresh(id), now));
    assert LinkSound(Refreshed(s, c, id, now).tokens, id);
    var t' := Refreshed(s, c, id, now).tokens;
    assert Chain(t', |s.tokens|) == [|s.tokens|];
  }

  /** The step at which all sessions of `user` die. */
  predicate KillsSessions(s: Rows, c: Settings, e: Step, user: int) {
    || (e.call.Refresh? && Judge(s, c, e.call.id, e.now).Reused? && s.tokens[e.call.id].user == user)
    || (e.call.DoReset? && ResetValid(s, e.call.reset, e.now) && s.resets[e.call.reset].user == user)
  }

  /** After a detected reuse or a password reset, no token issued to the user before it is ever
      accepted again, in any run. */
  lemma NothingOldAccepted(s: Rows, c: Settings, e: Step, run: seq<Step>, user: int, id: int)
    requires Linked(s.tokens) && KillsSessions(s, c, e, user) && 0 <= id < |s.tokens| && s.tokens[id].user == user
    ensures id !in AcceptedIn(Do(s, c, e), c, run)
  {
    StepKeepsLinked(s, c, e);
    RevokedForGood(Do(s, c, e), c, run, id);
  }

  /** Replaying a rotated token after the grace window, before it expires, is the theft case: it is
      seen whatever happened in between, and ends every session of that user, the thief's too. */
  lemma ReplayIsDetected(s: Rows, c: Settings, id: int, rotated: int, run: seq<Step>, now: int, later: seq<Step>, other: int)
    requires Linked(s.tokens) && Judge(s, c, id, rotated).Accepted?
    requires rotated + c.grace < now <= s.tokens[id].expires
    ensures var s1 := After(Refreshed(s, c, id, rotated), c, run);
            && 0 <= id < |s1.tokens|
            && Judge(s1, c, id, now) == Reused
            && (0 <= other < |s1.tokens| && s1.tokens[other].user == s.tokens[id].user
                ==> other !in AcceptedIn(Refreshed(s1, c, id, now), c, later))
  {
    var e := Step(Refresh(id), rotated);
    StepKeepsLinked(s, c, e);
    RunKeepsLinked(Do(s, c, e), c, run);
    var s1 := After(Refreshed(s, c, id, rotated), c, run);
    if 0 <= other < |s1.tokens| && s1.tokens[other].user == s.tokens[id].user {
      NothingOldAccepted(s1, c, Step(Refresh(id), now), later, s.tokens[id].user, other);
    }
  }

  // ---------------------------------------------------------------- verdicts and effects on the rows

  /** The verdict on a refresh, on the rows: a session is prolonged exactly by a token that exists, is not
      past its expiry, was never revoked and belongs to an active user. */
  lemma AcceptedIff(s: Rows, c: Settings, id: int, now: int)
    ensures var v := Judge(s, c, id, now); var known := 0 <= id < |s.tokens|;
            && (v.Accepted? <==>
                  known && now <= s.tokens[id].expires && s.tokens[id].revoked.None? && s.tokens[id].user in s.active)
            && (v == Expired <==> known && now > s.tokens[id].expires)
            && (v == Reused <==> known && now <= s.tokens[id].expires && s.tokens[id].revoked.Some?
                                 && (s.tokens[id].replaced.None? || now > s.tokens[id].revoked.value + c.grace))
            && (v == AlreadyUsed <==> known && now <= s.tokens[id].expires && s.tokens[id].revoked.Some?
                                      && s.tokens[id].replaced.Some? && now <= s.tokens[id].revoked.value + c.grace)
  {
  }

  /** Exactly the live tokens of `user` are revoked, at `now`. */
  predicate AllRevoked(t: seq<Token>, t': seq<Token>, user: int, now: int) {
    && |t'| == |t|
    && forall i | 0 <= i < |t| :: t'[i] == if t[i].user == user && t[i].revoked.None? then t[i].(revoked := Some(now)) else t[i]
  }

  /** What a refresh that is not accepted leaves: a detected reuse revokes the user's live tokens and
      nothing else, anything else changes no row. */
  lemma RefusedRefreshIsExact(s: Rows, c: Settings, id: int, now: int)
    requires !Judge(s, c, id, now).Accepted?
    ensures var s' := Do(s, c, Step(Refresh(id), now));
            && s' == s.(tokens := s'.tokens)
            && (Judge(s, c, id, now).Reused? ==> AllRevoked(s.tokens, s'.tokens, s.tokens[id].user, now))
            && (!Judge(s, c, id, now).Reused? ==> s' == s)
  {
  }

  lemma ExpiryStays(s: Rows, c: Settings, run: seq<Step>, k: nat, id: int)
    requires Linked(s.tokens) && k <= |run| && 0 <= id < |s.tokens|
    ensures id < |After(s, c, run[..k]).tokens| && After(s, c, run[..k]).tokens[id].expires == s.tokens[id].expires
  {
    RunKeepsLinked(s, c, run[..k]);
  }

  /** A token refreshed after its expiry is told so, whatever happened before, revoked or not, and the
      refresh changes no row. */
  lemma ExpiredRefreshDoesNothing(s: Rows, c: Settings, run: seq<Step>, k: nat)
    requires Linked(s.tokens) && k < |run| && run[k].call.Refresh? && 0 <= run[k].call.id < |s.tokens|
    requires run[k].now > s.tokens[run[k].call.id].expires
    ensures var before := After(s, c, run[..k]);
            Judge(before, c, run[k].call.id, run[k].now) == Expired && Do(before, c, run[k]) == before
  {
    ExpiryStays(s, c, run, k, run[k].call.id);
  }

  /** So a token refreshed only after its expiry is not among those accepted. */
  lemma {:induction false} ExpiredNeverAccepted(s: Rows, c: Settings, run: seq<Step>, id: int)
    requires Linked(s.tokens) && 0 <= id < |s.tokens|
    requires forall k | 0 <= k < |run| && run[k].call == Refresh(id) :: run[k].now > s.tokens[id].expires
    ensures id !in AcceptedIn(s, c, run)
    decreases |run|
  {
    if run != [] {
      StepKeepsLinked(s, c, run[0]);
      forall k | 0 <= k < |run[1..]| && run[1..][k].call == Refresh(id) ensures run[1..][k].now > s.tokens[id].expires {
        assert run[1..][k] == run[k + 1];
      }
      ExpiredNeverAccepted(Do(s, c, run[0]), c, run[1..], id);
    }
  }

  /** Every step runs after all tokens of `user` have expired, and none issues the user a new one. */
  ghost predicate Idle(s: Rows, run: seq<Step>, user: int) {
    && (forall i, k | 0 <= i < |s.tokens| && s.tokens[i].user == user && 0 <= k < |run| :: run[k].now > s.tokens[i].expires)
    && (forall k | 0 <= k < |run| :: !(run[k].call.Issue? && run[k].call.user == user))
  }

  lemma IdleRest(s: Rows, c: Settings, run: seq<Step>, user: int)
    requires Linked(s.tokens) && run != [] && Idle(s, run, user)
    ensures Idle(Do(s, c, run[0]), run[1..], user)
    ensures run[0].call.Refresh? && Judge(s, c, run[0].call.id, run[0].now).Accepted? ==> s.tokens[run[0].call.id].user != user
  {
    var s1 := Do(s, c, run[0]);
    StepKeepsLinked(s, c, run[0]);
    forall i, k | 0 <= i < |s1.tokens| && s1.tokens[i].user == user && 0 <= k < |run[1..]| ensures run[1..][k].now > s1.tokens[i].expires {
      assert run[1..][k] == run[k + 1];
      assert i < |s.tokens|;
    }
    forall k | 0 <= k < |run[1..]| ensures !(run[1..][k].call.Issue? && run[1..][k].call.user == user) { assert run[1..][k] == run[k + 1]; }
  }

  /** A session ends by time: once all of a user's tokens have expired, no run without a new login accepts
      any token of that user, and the user has no more tokens than before. */
  lemma {:induction false} SessionsEndByTime(s: Rows, c: Settings, run: seq<Step>, user: int)
    requires Linked(s.tokens) && Idle(s, run, user)
    ensures var s' := After(s, c, run);
            && |s.tokens| <= |s'.tokens|
            && (forall id | id in AcceptedIn(s, c, run) :: 0 <= id < |s'.tokens| && s'.tokens[id].user != user)
            && (forall i | |s.tokens| <= i < |s'.tokens| :: s'.tokens[i].user != user)
    decreases |run|
  {
    if run != [] {
      var s1 := Do(s, c, run[0]);
      StepKeepsLinked(s, c, run[0]);
      IdleRest(s, c, run, user);
      RunKeepsLinked(s1, c, run[1..]);
      SessionsEndByTime(s1, c, run[1..], user);
      assert forall i | |s.tokens| <= i < |s1.tokens| :: s1.tokens[i].user != user;
    }
  }

  /** A login adds one live token, of that user and scope, that lives for the configured time. */
  lemma IssueIsExact(s: Rows, c: Settings, user: int, org: Option<int>, now: int)
    ensures Do(s, c, Step(Issue(user, org), now)) == s.(tokens := s.tokens + [Token(user, org, now + c.ttl, None, None)])
  {
  }

  /** A logout revokes the token it names, now if it was live, and no other; that token is never
      accepted again, in any run. */
  lemma LogoutIsExact(s: Rows, c: Settings, id: int, now: int, run: seq<Step>)
    requires Linked(s.tokens)
    ensures var s' := Do(s, c, Step(Logout(id), now)); var known := 0 <= id < |s.tokens|;
            && s' == s.(tokens := s'.tokens) && |s'.tokens| == |s.tokens|
            && (known ==> s'.tokens[id] == s.tokens[id].(revoked := Some(if s.tokens[id].revoked.Some? then s.tokens[id].revoked.value else now)))
            && (forall i | 0 <= i < |s.tokens| && i != id :: s'.tokens[i] == s.tokens[i])
            && (known ==> id !in AcceptedIn(s', c, run))
  {
    StepKeepsLinked(s, c, Step(Logout(id), now));
    if 0 <= id < |s.tokens| { RevokedForGood(Do(s, c, Step(Logout(id), now)), c, run, id); }
  }

  /** A password reset goes through exactly for an unused, unexpired reset of a user who exists. It uses
      that reset up, no other, and revokes exactly the user's live tokens; else it changes nothing. */
  lemma ResetIsExact(s: Rows, c: Settings, r: int, now: int)
    ensures var s' := Do(s, c, Step(DoReset(r), now));
            var valid := 0 <= r < |s.resets| && !s.resets[r].used && now <= s.resets[r].expires && s.resets[r].user in s.users;
            && (!valid ==> s' == s)
            && (valid ==>
                  && s' == s.(resets := s.resets[r := s.resets[r].(used := true)], tokens := s'.tokens)
                  && AllRevoked(s.tokens, s'.tokens, s.resets[r].user, now))
  {
  }

  /** A reset that has been used is refused ever after. */
  lemma {:induction false} UsedResetStaysUsed(s: Rows, c: Settings, run: seq<Step>, r: nat, now: int)
    requires r < |s.resets| && s.resets[r].used
    ensures var s' := After(s, c, run);
            && r < |s'.resets| && s'.resets[r] == s.resets[r]
            && !ResetValid(s', r, now) && Do(s', c, Step(DoReset(r), now)) == s'
    decreases |run|
  {
    if run != [] { UsedResetStaysUsed(Do(s, c, run[0]), c, run[1..], r, now); }
  }

  // ---------------------------------------------------------------- the service

  class IdentityService {
    const c: Settings
    var tokens: seq<Token>
    var resets: seq<Reset>
    var users: set<int>
    var active: set<int>

    constructor (c: Settings)
      ensures this.c == c && State() == Rows([], [], {}, {}) && Linked(tokens)
    {
      this.c := c;
      tokens, resets, users, active := [], [], {}, {};
    }

    function State(): Rows reads this { Rows(tokens, resets, users, active) }

    method IssueTokens(user: int, org: Option<int>, now: int) returns (id: nat)
      requires Linked(tokens)
      modifies this
      ensures Linked(tokens) && id == |old(tokens)| && State() == Do(old(State()), c, Step(Issue(user, org), now))
    {
      StepKeepsLinked(State(), c, Step(Issue(user, org), now));
      id := |tokens|;
      tokens := tokens + [Token(user, org, now + c.ttl, None, None)];
    }

    /** Revoke every live token of the user, row by row. */
    method RevokeLive(user: int, now: int)
      modifies this`tokens
      ensures tokens == RevokeChain(old(tokens), user, now)
    {
      var i := 0;
      while i < |tokens|
        invariant 0 <= i <= |tokens| == |old(tokens)|
        invariant forall k | 0 <= k < i :: tokens[k] == RevokeChain(old(tokens), user, now)[k]
        invariant forall k | i <= k < |tokens| :: tokens[k] == old(tokens)[k]
      {
        if tokens[i].user == user && tokens[i].revoked.None? {
          tokens := tokens[i := tokens[i].(revoked := Some(now))];
        }
        i := i + 1;
      }
    }

    method RefreshToken(id: int, now: int) returns (v: Verdict)
      requires Linked(tokens)
      modifies this
      ensures Linked(tokens) && v == Judge(old(State()), c, id, now)
      ensures State() == Do(old(State()), c, Step(Refresh(id), now))
      ensures v.Accepted? <==> 0 <= id < |old(tokens)| && now <= old(tokens)[id].expires && old(tokens)[id].revoked.None?
                               && old(tokens)[id].user in old(active)
    {
      StepKeepsLinked(State(), c, Step(Refresh(id), now));
      AcceptedIff(State(), c, id, now);
      if id < 0 || id >= |tokens| { return Invalid; }
      var row := tokens[id];
      if row.expires < now { return Expired; }
      if row.revoked.Some? {
        if !(row.replaced.Some? && now - row.revoked.value <= c.grace) {
          RevokeLive(row.user, now);
          return Reused;
        }
        return AlreadyUsed;
      }
      if row.user !in active { return Invalid; }
      var successor := IssueTokens(row.user, row.org, now);
      tokens := tokens[id := row.(revoked := Some(now), replaced := Some(successor))];
      v := Accepted(successor);
    }

    method LogOut(id: int, now: int)
      requires Linked(tokens)
      modifies this
      ensures Linked(tokens) && State() == Do(old(State()), c, Step(Logout(id), now))
      ensures 0 <= id < |tokens| ==> tokens[id].revoked.Some?
    {
      StepKeepsLinked(State(), c, Step(Logout(id), now));
      if 0 <= id < |tokens| && tokens[id].revoked.None? {
        tokens := tokens[id := tokens[id].(revoked := Some(now))];
      }
    }

    method ResetPassword(r: int, now: int) returns (ok: bool)
      requires Linked(tokens)
      modifies this
      ensures Linked(tokens) && ok == ResetValid(old(State()), r, now)
      ensures State() == Do(old(State()), c, Step(DoReset(r), now))
      ensures ok ==> forall i | 0 <= i < |tokens| && tokens[i].user == resets[r].user :: tokens[i].revoked.Some?
    {
      StepKeepsLinked(State(), c, Step(DoReset(r), now));
      if r < 0 || r >= |resets| || resets[r].used || resets[r].expires < now { return false; }
      if resets[r].user !in users { return false; }
      resets := resets[r := resets[r].(used := true)];
      RevokeLive(resets[r].user, now);
      ok := true;
    }
  }
}
