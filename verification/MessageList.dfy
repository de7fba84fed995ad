/** The run's message list as the executor edits it: in place, together with the saved rows. */
module MessageList {
  import opened Common
  import opened ToolRecovery

  class LiveMessages {
    var messages: seq<Message>
    var rows: seq<Row>
    var nextId: nat

    constructor (loaded: Transcript)
      ensures View() == loaded
    {
      messages, rows, nextId := loaded.messages, loaded.rows, loaded.nextId;
    }

    function View(): Transcript
      reads this
    {
      Transcript(messages, rows, nextId)
    }

    /** Find the last assistant message that carries the call, then collect its results after it. */
    method ResultsOf(c: Call) returns (found: seq<Message>)
      ensures found == ResultMessages(messages, c)
    {
      var assistant := -1;
      for i := 0 to |messages|
        invariant -1 <= assistant < i
        invariant assistant >= 0 ==> Carries(messages[assistant], c.inv)
        invariant forall k :: assistant < k < i ==> !Carries(messages[k], c.inv)
      {
        if Carries(messages[i], c.inv) { assistant := i; }
      }
      found := [];
      assert messages[..assistant + 1] == [] || messages[..assistant + 1][assistant] == messages[assistant];
      for i := assistant + 1 to |messages|
        invariant found == ResultMessages(messages[..i], c)
      {
        assert messages[..i + 1] == messages[..i] + [messages[i]];
        if Answers(messages[i], c) { found := found + [messages[i]]; }
      }
      assert messages[..|messages|] == messages;
    }

    method Drop(c: Call)
      modifies this
      ensures View() == old(DropResults(View(), c))
    {
      var stale := ResultsOf(c);
      if stale == [] { return; }
      var ids := MessageIds(stale);
      messages := WithoutIds(messages, ids);
      rows := RowsWithoutIds(rows, ids);
    }

    method AddResult(c: Call, r: Result)
      modifies this
      ensures View() == old(AppendResult(View(), c, r))
    {
      var m := ToolMessage(nextId, Some(c.inv), c.providerId, r);
      messages := messages + [m];
      rows := InsertRow(rows, Row(|messages|, m));
      nextId := nextId + 1;
    }

    /** Bring the stored result of a finished call back, without saying it twice. */
    method Replay(c: Call, r: Result)
      modifies this
      ensures View() == old(Replayed(View(), c, r))
    {
      var existing := ResultsOf(c);
      var present := exists m :: m in existing && m.result == r;
      if present { return; }
      if existing != [] { Drop(c); }
      AddResult(c, r);
    }
  }

  // ---------------------------------------------------------------- what replaying leaves behind

  predicate DistinctIds(messages: seq<Message>) {
    forall i, j :: 0 <= i < j < |messages| ==> messages[i].id != messages[j].id
  }

  lemma {:induction false} WithoutAppend(messages: seq<Message>, m: Message, ids: set<nat>)
    ensures WithoutIds(messages + [m], ids) == WithoutIds(messages, ids) + if m.id in ids then [] else [m]
  {
    if messages == [] {
      assert WithoutIds([m][1..], ids) == [];
    } else {
      assert (messages + [m])[1..] == messages[1..] + [m];
      WithoutAppend(messages[1..], m, ids);
    }
  }

  lemma {:induction false} DroppedLeavesNone(messages: seq<Message>, c: Call, ids: set<nat>)
    requires forall k :: 0 <= k < |messages| && messages[k].AssistantMessage? ==> messages[k].id !in ids
    requires forall m :: m in ResultMessages(messages, c) ==> m.id in ids
    ensures ResultMessages(WithoutIds(messages, ids), c) == []
  {
    if messages != [] {
      var before, last := messages[..|messages| - 1], messages[|messages| - 1];
      assert messages == before + [last];
      WithoutAppend(before, last, ids);
      if !Carries(last, c.inv) {
        assert Answers(last, c) ==> last in ResultMessages(messages, c);
        DroppedLeavesNone(before, c, ids);
      }
      var kept := WithoutIds(before, ids);
      if last.id in ids {
        assert kept + [] == kept;
        assert !Carries(last, c.inv) by { assert messages[|messages| - 1].AssistantMessage? ==> last.id !in ids; }
      } else {
        assert (kept + [last])[..|kept|] == kept;
      }
    }
  }

  /** Replaying repairs the transcript: unless the stored result is there already, whatever other
      results the call had are gone and the stored one stands alone. */
  lemma ReplayLeavesOne(t: Transcript, c: Call, r: Result)
    requires DistinctIds(t.messages)
    ensures var found := ResultMessages(Replayed(t, c, r).messages, c);
            if ResultPresent(t, c, r) then found == ResultMessages(t.messages, c)
            else found == [ToolMessage(t.nextId, Some(c.inv), c.providerId, r)]
  {
    if !ResultPresent(t, c, r) {
      var stale := ResultMessages(t.messages, c);
      var ids := MessageIds(stale);
      forall k | 0 <= k < |t.messages| && t.messages[k].AssistantMessage? ensures t.messages[k].id !in ids {
        forall m | m in stale ensures m.id != t.messages[k].id {
          var j :| 0 <= j < |t.messages| && t.messages[j] == m;
        }
      }
      DroppedLeavesNone(t.messages, c, ids);
      var u := DropResults(t, c);
      var m := ToolMessage(u.nextId, Some(c.inv), c.providerId, r);
      assert Replayed(t, c, r).messages[..|u.messages|] == u.messages;
      assert ResultMessages(u.messages + [m], c) == ResultMessages(u.messages, c) + [m];
    }
  }
}
