/** What a failure writes, told on its classification. */
module CooldownMeaning {
  import opened Basics
  import opened CooldownSteps

  /** The row a failure concerns: that of all models when its scope is the account, and else that of the model. */
  function Concerned(account: string, model: string, c: Classification): Key {
    Key(account, if c.scope == CooldownAccount then "*" else model)
  }

  /** The failure is about the account itself. */
  predicate IsAccountFailure(c: Classification) {
    c.reloginRequired || c.disableAccount
  }

  /** A rate limit whose length upstream has not given. */
  predicate BacksOff(c: Classification) {
    !IsAccountFailure(c) && c.scope != CooldownNone && c.class_ == "rate_limit" && !c.explicitRetryAfter
  }

  /** A cooldown of a given length. */
  predicate CoolsDown(c: Classification) {
    && !IsAccountFailure(c) && c.scope != CooldownNone && c.cooldown > 0
    && (c.class_ == "rate_limit" ==> c.explicitRetryAfter)
  }

  /** What is written, on each classification. */
  lemma WritesExactly(account: string, model: string, c: Classification, now: int)
    ensures var w := WriteFor(account, model, c, now);
            var key := Concerned(account, model, c);
            && (w == MarkRelogin <==> c.reloginRequired)
            && (w == Disable <==> c.disableAccount && !c.reloginRequired)
            && (w.Advance? <==> BacksOff(c)) && (w.Advance? ==> w.key == key)
            && (w.Put? <==> CoolsDown(c))
            && (w.Put? ==> w.key == key && w.row == Row(Some(now + c.cooldown), 0, c.class_, Some(now)))
            && (w == NoWrite <==> !IsAccountFailure(c) && !BacksOff(c) && !CoolsDown(c))
  {
  }

  /** The next level of a rate limit: its length doubles from a minute on, up to half an hour. */
  function LevelLength(level: int): int {
    match level
    case 1 => 60
    case 2 => 120
    case 3 => 240
    case 4 => 480
    case 5 => 960
    case _ => 1800
  }

  /** What the row of a rate limit comes to be. */
  predicate BackedOff(before: Option<Row>, after: Row, c: Classification, now: int) {
    after.class_ == c.class_ && after.lastErrorAt == Some(now) &&
    match before
    case None => after.until == Some(now + 60) && after.backoff == 1
    case Some(row) =>
      if row.until.Some? && row.until.value > now then after.until == row.until && after.backoff == row.backoff
      else
        var level := if row.backoff >= 6 then 6 else row.backoff + 1;
        && after.backoff == level
        && after.until == Some(now + if row.backoff <= 0 then 60 else LevelLength(row.backoff + 1))
  }

  /** And at most the row that the failure concerns changes. */
  lemma AppliesExactly(rows: Table, account: string, model: string, c: Classification, now: int)
    ensures var after := Applied(rows, account, model, c, now);
            var key := Concerned(account, model, c);
            && rows - {key} == after - {key}
            && (BacksOff(c) ==>
                 key in after && BackedOff(if key in rows then Some(rows[key]) else None, after[key], c, now))
            && (CoolsDown(c) ==>
                 key in after && after[key] == Row(Some(now + c.cooldown), 0, c.class_, Some(now)))
            && (!BacksOff(c) && !CoolsDown(c) ==> after == rows)
  {
    WritesExactly(account, model, c, now);
    hide WriteFor;
  }

  /** A success ends the cooldown and the backoff of its own row. */
  lemma SucceedsExactly(rows: Table, key: Key)
    ensures var after := Ready(rows, key);
            && rows - {key} == after - {key} && key in after
            && after[key] == if key in rows then Row(None, 0, rows[key].class_, rows[key].lastErrorAt)
                             else Row(None, 0, "", None)
  {
  }

  /**
   Reading drops a cooldown that is over, and the backoff with it unless it is that of a rate limit; a row without one,
   or with one still running, is read as it stands, and what is read is what the table then holds.
   */
  lemma ReadsExactly(rows: Table, key: Key, now: int)
    ensures var after := Get(rows, key, now);
            && rows - {key} == after - {key} && after.Keys == rows.Keys
            && Found(rows, key, now) == (if key in after then Some(after[key]) else None)
            && (key in rows ==>
                 var before := rows[key];
                 if before.until.Some? && before.until.value <= now
                 then after[key] == Row(None, if before.class_ == "rate_limit" then before.backoff else 0,
                                        before.class_, before.lastErrorAt)
                 else after[key] == before)
  {
  }
}
