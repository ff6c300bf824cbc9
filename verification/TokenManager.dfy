/** The token manager as it is written: locks, early returns and assignments to its fields. */
module TokenManager {
  import opened Domain
  import opened TokenSteps

  // ---------------------------------------------------------------- scopes

  /** The scopes in order, with one space between each two. */
  function Joined(scopes: seq<string>): string {
    if scopes == [] then ""
    else if |scopes| == 1 then scopes[0]
    else Joined(scopes[..|scopes| - 1]) + " " + scopes[|scopes| - 1]
  }

  /** The space-delimited list read back, as section 3.3 of RFC 6749 defines it. */
  function Split(s: string): seq<string> {
    if ' ' !in s then [s] else Split(UpToLastSpace(s)) + [s[|UpToLastSpace(s)| + 1..]]
  }

  function UpToLastSpace(s: string): (p: string)
    requires ' ' in s
    ensures |p| < |s| && p == s[..|p|] && s[|p|] == ' ' && ' ' !in s[|p| + 1..]
  {
    if s[|s| - 1] == ' ' then s[..|s| - 1]
    else
      assert s == s[..|s| - 1] + [s[|s| - 1]];
      var p := UpToLastSpace(s[..|s| - 1]);
      assert s[|p| + 1..] == s[..|s| - 1][|p| + 1..] + [s[|s| - 1]];
      p
  }

  lemma SpaceAfter(s: string, i: nat, j: nat)
    requires i < |s| && j < |s| && s[j] == ' '
    ensures j > i ==> ' ' in s[i + 1..]
  {
    if j > i { assert s[i + 1..][j - i - 1] == ' '; }
  }

  lemma LastSpace(a: string, b: string)
    requires ' ' !in b
    ensures UpToLastSpace(a + " " + b) == a
  {
    var s := a + " " + b;
    var p := UpToLastSpace(s);
    assert s[|a|] == ' ' && s[|a| + 1..] == b;
    SpaceAfter(s, |p|, |a|);
    SpaceAfter(s, |a|, |p|);
  }

  /** What follows the last space is the last element. */
  lemma SplitSnoc(a: string, b: string)
    requires ' ' !in b
    ensures Split(a + " " + b) == Split(a) + [b]
  {
    var s := a + " " + b;
    LastSpace(a, b);
    assert s[|a|] == ' ';
    assert s[|a| + 1..] == b;
    hide UpToLastSpace;
  }

  lemma JoinedSnoc(before: seq<string>, last: string)
    requires before != []
    ensures Joined(before + [last]) == Joined(before) + " " + last
  {
    assert (before + [last])[..|before|] == before;
  }

  /** Scopes without spaces survive the request: the server reads back the very list. */
  lemma {:induction false} ScopesRoundTrip(scopes: seq<string>)
    requires scopes != [] && forall i :: 0 <= i < |scopes| ==> ' ' !in scopes[i]
    ensures Split(Joined(scopes)) == scopes
  {
    if |scopes| == 1 {
      assert scopes == [scopes[0]];
    } else {
      var before, last := scopes[..|scopes| - 1], scopes[|scopes| - 1];
      assert scopes == before + [last];
      hide Split, Joined;
      ScopesRoundTrip(before);
      JoinedSnoc(before, last);
      SplitSnoc(Joined(before), last);
    }
  }

  // ---------------------------------------------------------------- the manager

  datatype Credentials = Credentials(clientID: string, clientSec: string)

  /** From the write lock on, with nobody else about. */
  lemma WriterIsAnswered(s: Shared, i: Cid, script: seq<Moment>)
    requires s.readers == {} && s.writer.None? && |script| >= 11
    ensures Alone(s, i, WantsWrite, script, 3) ==
      if script[5].now <= s.token.expires + 10_000_000_000 then Move(s, Done(Returned(s.token.access)))
      else if script[7].reply.Denied? then Move(s, Done(Failed))
      else
        var g := script[7].reply.grant;
        Move(s.(token := Token(g.access, g.refresh, script[8].now + Duration(g.validity))), Done(Returned(g.access)))
  {
    var locked := s.(writer := Some(i));
    assert Alone(s, i, WantsWrite, script, 3) == Alone(locked, i, Writing, script, 5);
    if script[5].now <= s.token.expires + 10_000_000_000 {
      assert Alone(locked, i, Writing, script, 5) == Alone(s, i, Released, script, 7);
      LastStep(s, i, Released, script, 7);
    } else if script[7].reply.Denied? {
      assert Alone(locked, i, Writing, script, 5) == Alone(locked, i, Waiting, script, 7);
      assert Alone(locked, i, Waiting, script, 7) == Alone(locked, i, Failing, script, 8);
      LastStep(locked, i, Failing, script, 8);
    } else {
      var g := script[7].reply.grant;
      assert Alone(locked, i, Writing, script, 5) == Alone(locked, i, Waiting, script, 7);
      assert Alone(locked, i, Waiting, script, 7) == Alone(locked, i, Storing(g), script, 8);
      LastStep(locked.(token := Token(g.access, g.refresh, script[8].now + Duration(g.validity))), i, Stored(g.access), script, 9);
    }
  }

  /** The answer to a call alone, case by case: it fails exactly when it looks twice in vain and is denied. */
  lemma AloneIsAnswered(s: Shared, i: Cid, script: seq<Moment>)
    requires s.readers == {} && s.writer.None? && |script| >= 11
    ensures var late := s.token.expires + 10_000_000_000;
      Alone(s, i, Start, script, 0) ==
        if script[1].now <= late || script[5].now <= late then Move(s, Done(Returned(s.token.access)))
        else if script[7].reply.Denied? then Move(s, Done(Failed))
        else
          var g := script[7].reply.grant;
          Move(s.(token := Token(g.access, g.refresh, script[8].now + Duration(g.validity))), Done(Returned(g.access)))
  {
    var reading := s.(readers := {i});
    assert s.readers + {i} == {i} && {i} - {i} == s.readers;
    assert Alone(s, i, Start, script, 0) == Alone(reading, i, Reading, script, 1);
    if script[1].now <= s.token.expires + 10_000_000_000 {
      assert Alone(reading, i, Reading, script, 1) == Alone(reading, i, Read(s.token.access), script, 2);
      LastStep(reading, i, Read(s.token.access), script, 2);
    } else {
      assert Alone(reading, i, Reading, script, 1) == Alone(reading, i, SawExpired, script, 2);
      assert reading.(readers := reading.readers - {i}) == s;
      assert Alone(reading, i, SawExpired, script, 2) == Alone(s, i, WantsWrite, script, 3);
      WriterIsAnswered(s, i, script);
    }
  }

  class PasswordRefreshTokenGrantManager {
    var ran: bool
    var access: string
    var refresh: string
    var expires: int
    var readers: set<Cid>
    var writer: Option<Cid>
    var client: Credentials

    constructor ()
      ensures !ran && State() == Shared(Token("", "", 0), {}, None)
    {
      ran, access, refresh, expires, readers, writer, client := false, "", "", 0, {}, None, Credentials("", "");
    }

    function State(): Shared
      reads this
    {
      Shared(Token(access, refresh, expires), readers, writer)
    }

    /** The scope parameter of the first token request. */
    method CreateAccessTokenReq(scopes: seq<string>) returns (scopeVal: string)
      ensures scopeVal == Joined(scopes)
    {
      scopeVal := "";
      if |scopes| != 0 {
        scopeVal := scopes[0];
        assert scopes[..1] == [scopes[0]];
        for i := 1 to |scopes|
          invariant scopeVal == Joined(scopes[..i])
        {
          assert scopes[..i + 1][..i] == scopes[..i];
          scopeVal := scopeVal + " " + scopes[i];
        }
        assert scopes[..|scopes|] == scopes;
      }
    }

    /**
     * Runs once: registers the client, asks for the first token and stores it. Any failure, and
     * here also a validity that does not fit a duration, ends the program.
     */
    method Init(scopes: seq<string>, registered: Option<Credentials>, reply: Reply, now: int) returns (exits: bool)
      modifies this
      ensures old(ran) ==> !exits && unchanged(this)
      ensures !old(ran) ==> ran && readers == old(readers) && writer == old(writer)
      ensures !old(ran) ==>
        (exits <==> scopes == [] || registered.None? || reply.Denied?
                    || !(-0x7FFF_FFFF_FFFF_FFFF <= reply.grant.validity * 1_000_000_000 <= 0x7FFF_FFFF_FFFF_FFFF))
      ensures !old(ran) && !exits ==>
        Token(access, refresh, expires) == TokenSteps.Init(reply.grant, now, 0).shared.token
        && client == registered.value
        && access == reply.grant.access && refresh == reply.grant.refresh
        && expires == now + reply.grant.validity * 1_000_000_000
    {
      if ran {
        return false;
      }
      ran := true;
      if |scopes| == 0 || registered.None? {
        return true;
      }
      client := registered.value;
      var scope := CreateAccessTokenReq(scopes);
      if reply.Denied? {
        return true;
      }
      var validity := reply.grant.validity;
      if !(-MAX_DURATION <= validity * SECOND <= MAX_DURATION) {
        return true;
      }
      access, refresh, expires := reply.grant.access, reply.grant.refresh, now + validity * SECOND;
      return false;
    }

    /** A call that finds the lock free does exactly the steps of a caller nobody interrupts. */
    method GetToken(i: Cid, script: seq<Moment>) returns (result: Result)
      requires readers == {} && writer.None? && |script| >= 11
      modifies this
      ensures readers == {} && writer.None?
      ensures ran == old(ran) && client == old(client)
      ensures Alone(old(State()), i, Start, script, 0) == Move(State(), Done(result))
      ensures var late := old(expires) + 10_000_000_000;
        if script[1].now <= late || script[5].now <= late then
          result == Returned(old(access)) && Token(access, refresh, expires) == old(Token(access, refresh, expires))
        else if script[7].reply.Denied? then
          result == Failed && Token(access, refresh, expires) == old(Token(access, refresh, expires))
        else
          var g := script[7].reply.grant;
          && result == Returned(g.access) && access == g.access && refresh == g.refresh
          && expires == script[8].now + Duration(g.validity)
    {
      AloneIsAnswered(State(), i, script);
      ghost var s0 := State();
      readers := readers + {i};
      assert Alone(s0, i, Start, script, 0) == Alone(State(), i, Reading, script, 1);
      if !IsExpired(script[1].now, expires) {
        var token := access;
        assert Alone(State(), i, Reading, script, 1) == Alone(State(), i, Read(token), script, 2);
        LastStep(State(), i, Read(token), script, 2);
        readers := readers - {i};
        assert State() == s0;
        return Returned(token);
      }
      assert Alone(State(), i, Reading, script, 1) == Alone(State(), i, SawExpired, script, 2);
      readers := readers - {i};
      assert State() == s0;
      assert Alone(s0.(readers := s0.readers + {i}), i, SawExpired, script, 2) == Alone(s0, i, WantsWrite, script, 3);
      result := GetTokenExclusively(i, script);
    }

    /** From the request for the write lock on. */
    method GetTokenExclusively(i: Cid, script: seq<Moment>) returns (result: Result)
      requires readers == {} && writer.None? && |script| >= 11
      modifies this
      ensures readers == {} && writer.None?
      ensures ran == old(ran) && client == old(client)
      ensures Alone(old(State()), i, WantsWrite, script, 3) == Move(State(), Done(result))
      ensures script[5].now <= old(expires) + 10_000_000_000 ==>
        result == Returned(old(access)) && Token(access, refresh, expires) == old(Token(access, refresh, expires))
      ensures result == Failed <==> script[5].now > old(expires) + 10_000_000_000 && script[7].reply.Denied?
    {
      WriterIsAnswered(State(), i, script);
      ghost var s0 := State();
      writer := Some(i);
      assert Alone(s0, i, WantsWrite, script, 3) == Alone(State(), i, Draining, script, 4);
      assert Alone(State(), i, Draining, script, 4) == Alone(State(), i, Writing, script, 5);
      if !IsExpired(script[5].now, expires) {
        assert Alone(State(), i, Writing, script, 5) == Alone(State(), i, FoundFresh, script, 6);
        writer := None;
        assert Alone(s0.(writer := Some(i)), i, FoundFresh, script, 6) == Alone(State(), i, Released, script, 7);
        LastStep(State(), i, Released, script, 7);
        return Returned(access);
      }
      assert Alone(State(), i, Writing, script, 5) == Alone(State(), i, Refreshing, script, 6);
      assert Alone(State(), i, Refreshing, script, 6) == Alone(State(), i, Waiting, script, 7);
      result := GenerateRefreshToken(i, script);
    }

    /** From the refresh call to the release of the write lock. */
    method GenerateRefreshToken(i: Cid, script: seq<Moment>) returns (result: Result)
      requires readers == {} && writer == Some(i) && |script| >= 11
      modifies this
      ensures readers == {} && writer.None?
      ensures ran == old(ran) && client == old(client)
      ensures Alone(old(State()), i, Waiting, script, 7) == Move(State(), Done(result))
      ensures if script[7].reply.Denied? then
                result == Failed && Token(access, refresh, expires) == old(Token(access, refresh, expires))
              else
                var g := script[7].reply.grant;
                && result == Returned(g.access) && access == g.access && refresh == g.refresh
                && expires == script[8].now + Duration(g.validity)
    {
      var reply := script[7].reply;
      if reply.Denied? {
        assert Alone(State(), i, Waiting, script, 7) == Alone(State(), i, Failing, script, 8);
        LastStep(State(), i, Failing, script, 8);
        writer := None;
        return Failed;
      }
      var g := reply.grant;
      assert Alone(State(), i, Waiting, script, 7) == Alone(State(), i, Storing(g), script, 8);
      refresh := g.refresh;
      access := g.access;
      expires := script[8].now + Duration(g.validity);
      assert Alone(old(State()), i, Storing(g), script, 8) == Alone(State(), i, Stored(g.access), script, 9);
      LastStep(State(), i, Stored(g.access), script, 9);
      writer := None;
      return Returned(g.access);
    }
  }
}
