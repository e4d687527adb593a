/**
 * The portrait collection: a table of rows owned by users, each with an
 * `is_active` flag, and the bucket holding the portrait images. Upload,
 * delete, set-active and relabel are modelled as methods over that state;
 * the outcome of each database or storage call is a parameter.
 */
module Portraits {
  import opened Common
  import opened Validations

  datatype Portrait = Portrait(
    id: string,
    userId: string,
    storagePath: string,
    publicUrl: string,
    labelText: string,
    isActive: bool,
    createdAt: int)

  /** Portrait ids are the table's primary key. */
  ghost predicate UniqueIds(rows: seq<Portrait>)
  {
    forall i, j :: 0 <= i < j < |rows| ==> rows[i].id != rows[j].id
  }

  /** No user has two active portraits. */
  ghost predicate AtMostOneActive(rows: seq<Portrait>)
  {
    forall i, j :: 0 <= i < j < |rows| && rows[i].isActive && rows[j].isActive ==>
      rows[i].userId != rows[j].userId
  }

  /** `.select("*", {count: "exact"}).eq("user_id", userId)` */
  function CountOwned(rows: seq<Portrait>, userId: string): (n: nat)
    ensures n <= |rows|
    ensures n == 0 <==> forall k :: 0 <= k < |rows| ==> rows[k].userId != userId
  {
    if rows == [] then 0
    else (if rows[0].userId == userId then 1 else 0) + CountOwned(rows[1..], userId)
  }

  /** `.eq("id", id).eq("user_id", userId).single()` */
  function FindOwned(rows: seq<Portrait>, id: string, userId: string): (r: Option<Portrait>)
    ensures r.Some? ==> r.value in rows && r.value.id == id && r.value.userId == userId
    ensures r.None? ==> forall k :: 0 <= k < |rows| ==> !(rows[k].id == id && rows[k].userId == userId)
  {
    if rows == [] then None
    else if rows[0].id == id && rows[0].userId == userId then Some(rows[0])
    else FindOwned(rows[1..], id, userId)
  }

  /** `.delete().eq("id", id).eq("user_id", userId)` */
  function Remove(rows: seq<Portrait>, id: string, userId: string): (r: seq<Portrait>)
    ensures forall p :: p in r <==> p in rows && !(p.id == id && p.userId == userId)
    ensures |r| <= |rows|
  {
    if rows == [] then []
    else if rows[0].id == id && rows[0].userId == userId then Remove(rows[1..], id, userId)
    else [rows[0]] + Remove(rows[1..], id, userId)
  }

  /** A row that clashes with none of a valid table can be put in front of it. */
  lemma ConsKeepsInvariants(x: Portrait, rest: seq<Portrait>)
    requires UniqueIds(rest) && AtMostOneActive(rest)
    requires forall j :: 0 <= j < |rest| ==> rest[j].id != x.id
    requires forall j :: 0 <= j < |rest| && rest[j].isActive && x.isActive ==> rest[j].userId != x.userId
    ensures UniqueIds([x] + rest) && AtMostOneActive([x] + rest)
  {
    var r := [x] + rest;
    assert forall j :: 1 <= j < |r| ==> r[j] == rest[j - 1];
  }

  /** Removing rows keeps the others, so the invariants hold. */
  lemma {:induction false} RemoveKeepsInvariants(rows: seq<Portrait>, id: string, userId: string)
    requires UniqueIds(rows) && AtMostOneActive(rows)
    ensures UniqueIds(Remove(rows, id, userId)) && AtMostOneActive(Remove(rows, id, userId))
  {
    if rows != [] {
      var tail := rows[1..];
      assert UniqueIds(tail) && AtMostOneActive(tail) by {
        assert forall j :: 0 <= j < |tail| ==> tail[j] == rows[j + 1];
      }
      RemoveKeepsInvariants(tail, id, userId);
      var rest := Remove(tail, id, userId);
      if !(rows[0].id == id && rows[0].userId == userId) {
        forall j | 0 <= j < |rest|
          ensures rest[j].id != rows[0].id
          ensures rest[j].isActive && rows[0].isActive ==> rest[j].userId != rows[0].userId
        {
          assert rest[j] in tail;
          var k :| 0 <= k < |tail| && tail[k] == rest[j];
          assert rows[k + 1] == rest[j];
        }
        ConsKeepsInvariants(rows[0], rest);
      }
    }
  }

  /** `.update({is_active: false}).eq("user_id", userId)` */
  function DeactivateAll(rows: seq<Portrait>, userId: string): (r: seq<Portrait>)
    ensures |r| == |rows|
    ensures forall k :: 0 <= k < |rows| ==>
              r[k] == if rows[k].userId == userId then rows[k].(isActive := false) else rows[k]
  {
    seq(|rows|, k requires 0 <= k < |rows| =>
      if rows[k].userId == userId then rows[k].(isActive := false) else rows[k])
  }

  /** `.update({is_active: true}).eq("id", id).eq("user_id", userId)` */
  function Activate(rows: seq<Portrait>, id: string, userId: string): (r: seq<Portrait>)
    ensures |r| == |rows|
    ensures forall k :: 0 <= k < |rows| ==>
              r[k] == if rows[k].id == id && rows[k].userId == userId then rows[k].(isActive := true) else rows[k]
  {
    seq(|rows|, k requires 0 <= k < |rows| =>
      if rows[k].id == id && rows[k].userId == userId then rows[k].(isActive := true) else rows[k])
  }

  /** `.update({label}).eq("id", id).eq("user_id", userId)` */
  function Relabel(rows: seq<Portrait>, id: string, userId: string, labelText: string): (r: seq<Portrait>)
    ensures |r| == |rows|
    ensures forall k :: 0 <= k < |rows| ==>
              r[k] == if rows[k].id == id && rows[k].userId == userId then rows[k].(labelText := labelText) else rows[k]
  {
    seq(|rows|, k requires 0 <= k < |rows| =>
      if rows[k].id == id && rows[k].userId == userId then rows[k].(labelText := labelText) else rows[k])
  }

  /** After deactivate-all then activate-one, the user's only active
      portrait is the chosen one (if they own it), and every other user's
      rows are as before. */
  lemma SetActiveEffect(rows: seq<Portrait>, id: string, userId: string)
    ensures var r := Activate(DeactivateAll(rows, userId), id, userId);
            && |r| == |rows|
            && (forall k :: 0 <= k < |rows| && rows[k].userId == userId ==> (r[k].isActive <==> rows[k].id == id))
            && (forall k :: 0 <= k < |rows| && rows[k].userId != userId ==> r[k] == rows[k])
            && (forall k :: 0 <= k < |rows| ==> r[k].(isActive := rows[k].isActive) == rows[k])
  {
  }

  lemma SetActiveKeepsInvariants(rows: seq<Portrait>, id: string, userId: string)
    requires UniqueIds(rows) && AtMostOneActive(rows)
    ensures var r := Activate(DeactivateAll(rows, userId), id, userId);
            UniqueIds(r) && AtMostOneActive(r)
  {
  }

  lemma DeactivateKeepsInvariants(rows: seq<Portrait>, userId: string)
    requires UniqueIds(rows) && AtMostOneActive(rows)
    ensures UniqueIds(DeactivateAll(rows, userId)) && AtMostOneActive(DeactivateAll(rows, userId))
  {
  }

  /** Row k is the user's portrait with the latest creation time. */
  predicate IsMostRecent(rows: seq<Portrait>, k: int, userId: string)
  {
    0 <= k < |rows| && rows[k].userId == userId
    && forall j :: 0 <= j < |rows| && rows[j].userId == userId ==> rows[j].createdAt <= rows[k].createdAt
  }

  /** A user with at least one portrait has a most recent one. */
  lemma {:induction false} MostRecentExists(rows: seq<Portrait>, userId: string)
    requires CountOwned(rows, userId) > 0
    ensures exists k :: IsMostRecent(rows, k, userId)
  {
    var rest := rows[1..];
    if CountOwned(rest, userId) == 0 {
      assert IsMostRecent(rows, 0, userId);
    } else {
      MostRecentExists(rest, userId);
      var m :| IsMostRecent(rest, m, userId);
      if rows[0].userId == userId && rows[0].createdAt > rest[m].createdAt {
        assert IsMostRecent(rows, 0, userId);
      } else {
        assert IsMostRecent(rows, m + 1, userId);
      }
    }
  }

  /** Promoting one portrait of a user who has none active keeps at most one
      active portrait per user. */
  lemma PromoteKeepsInvariants(rows: seq<Portrait>, k: nat, userId: string)
    requires UniqueIds(rows) && AtMostOneActive(rows)
    requires k < |rows| && rows[k].userId == userId
    requires forall j :: 0 <= j < |rows| && rows[j].userId == userId ==> !rows[j].isActive
    ensures UniqueIds(rows[k := rows[k].(isActive := true)])
    ensures AtMostOneActive(rows[k := rows[k].(isActive := true)])
  {
  }

  /** The table after a successful delete: the (id, user) row is gone and,
      when `promote` holds and the user has portraits left, one of the user's
      most recent remaining portraits has become active. */
  ghost predicate AfterDelete(before: seq<Portrait>, after: seq<Portrait>, id: string, userId: string, promote: bool)
  {
    var rest := Remove(before, id, userId);
    if promote && CountOwned(rest, userId) > 0 then
      exists k :: IsMostRecent(rest, k, userId) && after == rest[k := rest[k].(isActive := true)]
    else
      after == rest
  }

  /** When the deleted row was the user's active portrait, none of the
      user's remaining portraits is active. */
  lemma RemovedWasOnlyActive(rows: seq<Portrait>, id: string, userId: string)
    requires UniqueIds(rows) && AtMostOneActive(rows)
    requires FindOwned(rows, id, userId).Some? && FindOwned(rows, id, userId).value.isActive
    ensures forall j :: 0 <= j < |Remove(rows, id, userId)| && Remove(rows, id, userId)[j].userId == userId ==>
              !Remove(rows, id, userId)[j].isActive
  {
    var p := FindOwned(rows, id, userId).value;
    var rest := Remove(rows, id, userId);
    forall j | 0 <= j < |rest| && rest[j].userId == userId
      ensures !rest[j].isActive
    {
      assert rest[j] in rows;
      var a :| 0 <= a < |rows| && rows[a] == rest[j];
      var b :| 0 <= b < |rows| && rows[b] == p;
      assert a != b;
    }
  }

  /** Removing one owned portrait lowers the owner's count by exactly one. */
  lemma {:induction false} RemoveCount(rows: seq<Portrait>, id: string, userId: string)
    requires UniqueIds(rows) && FindOwned(rows, id, userId).Some?
    ensures CountOwned(Remove(rows, id, userId), userId) == CountOwned(rows, userId) - 1
  {
    if rows[0].id == id && rows[0].userId == userId {
      assert FindOwned(rows[1..], id, userId).None?;
      RemoveNothing(rows[1..], id, userId);
    } else {
      RemoveCount(rows[1..], id, userId);
    }
  }

  lemma {:induction false} RemoveNothing(rows: seq<Portrait>, id: string, userId: string)
    requires FindOwned(rows, id, userId).None?
    ensures Remove(rows, id, userId) == rows
  {
    if rows != [] {
      RemoveNothing(rows[1..], id, userId);
    }
  }

  /** Flag and label updates never change how many portraits a user owns. */
  lemma {:induction false} CountOwnedSameOwners(a: seq<Portrait>, b: seq<Portrait>, userId: string)
    requires |a| == |b| && forall k :: 0 <= k < |a| ==> a[k].userId == b[k].userId
    ensures CountOwned(a, userId) == CountOwned(b, userId)
  {
    if a != [] {
      CountOwnedSameOwners(a[1..], b[1..], userId);
    }
  }

  /** A successful delete leaves the owner exactly one portrait fewer, so a
      user whose count was known to exceed one keeps at least one. */
  lemma AfterDeleteCount(before: seq<Portrait>, after: seq<Portrait>, id: string, userId: string, promote: bool)
    requires UniqueIds(before) && FindOwned(before, id, userId).Some?
    requires AfterDelete(before, after, id, userId, promote)
    ensures CountOwned(after, userId) == CountOwned(before, userId) - 1
  {
    var rest := Remove(before, id, userId);
    RemoveCount(before, id, userId);
    if promote && CountOwned(rest, userId) > 0 {
      var k :| IsMostRecent(rest, k, userId) && after == rest[k := rest[k].(isActive := true)];
      CountOwnedSameOwners(rest, after, userId);
    }
  }

  const OnlyPortrait := "Cannot delete your only portrait. Upload another first."
  const PortraitNotFound := "Portrait not found"

  class PortraitTable {
    var rows: seq<Portrait>
    /** Paths of the objects in the portraits storage bucket. */
    var objects: set<string>

    ghost predicate Valid()
      reads this
    {
      UniqueIds(rows) && AtMostOneActive(rows)
    }

    constructor ()
      ensures Valid() && rows == [] && objects == {}
    {
      rows := [];
      objects := {};
    }

    /** `uploadPortrait(input)`: the new row is active iff the user had no
        portraits (as far as the count query could tell); a missing label is
        stored as the empty string. */
    method Upload(user: Option<AuthUser>, input: UploadPortraitInput, isUrl: string -> bool,
                  countFailed: bool, insert: Result<string, string>, now: int)
      returns (r: Result<string, string>)
      requires Valid()
      requires insert.Ok? ==> forall k :: 0 <= k < |rows| ==> rows[k].id != insert.value
      modifies this`rows
      ensures Valid()
      ensures user.None? ==> r == Err(NotAuthenticated) && rows == old(rows)
      ensures user.Some? && ParseUploadPortrait(input, isUrl).Err? ==>
                r == Err(ParseUploadPortrait(input, isUrl).error) && rows == old(rows)
      ensures user.Some? && ParseUploadPortrait(input, isUrl).Ok? && insert.Err? ==>
                r == Err(insert.error) && rows == old(rows)
      ensures user.Some? && ParseUploadPortrait(input, isUrl).Ok? && insert.Ok? ==>
                && r == Ok(insert.value)
                && rows == old(rows) + [Portrait(insert.value, user.value.id, input.storagePath,
                                                 input.publicUrl, Coalesce(input.labelText, ""),
                                                 !countFailed && CountOwned(old(rows), user.value.id) == 0,
                                                 now)]
    {
      if user.None? {
        return Err(NotAuthenticated);
      }
      var parsed := ParseUploadPortrait(input, isUrl);
      if parsed.Err? {
        return Err(parsed.error);
      }
      var uid := user.value.id;
      // a failed count query yields a null count, which is not 0
      var isFirst := !countFailed && CountOwned(rows, uid) == 0;
      if insert.Err? {
        return Err(insert.error);
      }
      var row := Portrait(insert.value, uid, input.storagePath, input.publicUrl,
                          Coalesce(input.labelText, ""), isFirst, now);
      rows := rows + [row];
      r := Ok(insert.value);
    }

    /** `deletePortrait(portraitId)`: refuses the caller's last portrait
        (when the count is known), removes the stored image even if the row
        delete then fails, and hands "active" on to the most recent remaining
        portrait when the deleted one was active. `promoteApplied` is whether
        the most-recent lookup and its update went through. */
    method Delete(user: Option<AuthUser>, portraitId: string, isUuid: string -> bool,
                  countFailed: bool, fetchFailed: bool, storageFailed: bool,
                  deleteError: Option<string>, promoteApplied: bool)
      returns (r: Outcome)
      requires Valid()
      modifies this
      ensures Valid()
      ensures user.None? ==> r == Fail(NotAuthenticated) && unchanged(this)
      ensures user.Some? && !isUuid(portraitId) ==> r == Fail(InvalidPortraitId) && unchanged(this)
      ensures (user.Some? && isUuid(portraitId) && !countFailed
               && CountOwned(old(rows), user.value.id) <= 1) ==>
                r == Fail(OnlyPortrait) && unchanged(this)
      ensures (user.Some? && isUuid(portraitId) && (countFailed || CountOwned(old(rows), user.value.id) > 1)
               && (fetchFailed || FindOwned(old(rows), portraitId, user.value.id).None?)) ==>
                r == Fail(PortraitNotFound) && unchanged(this)
      ensures (user.Some? && isUuid(portraitId) && (countFailed || CountOwned(old(rows), user.value.id) > 1)
               && !fetchFailed && FindOwned(old(rows), portraitId, user.value.id).Some?) ==>
                && objects == (if storageFailed then old(objects)
                               else old(objects) - {FindOwned(old(rows), portraitId, user.value.id).value.storagePath})
                && (deleteError.Some? ==> r == Fail(deleteError.value) && rows == old(rows))
                && (deleteError.None? ==>
                      r == Pass
                      && AfterDelete(old(rows), rows, portraitId, user.value.id,
                                     FindOwned(old(rows), portraitId, user.value.id).value.isActive && promoteApplied))
    {
      if user.None? {
        return Fail(NotAuthenticated);
      }
      if !isUuid(portraitId) {
        return Fail(InvalidPortraitId);
      }
      var uid := user.value.id;
      // a failed count query yields null, which skips the guard
      if !countFailed && CountOwned(rows, uid) <= 1 {
        return Fail(OnlyPortrait);
      }
      var found := FindOwned(rows, portraitId, uid);
      if fetchFailed || found.None? {
        return Fail(PortraitNotFound);
      }
      var portrait := found.value;
      // a storage error is only logged
      if !storageFailed {
        objects := objects - {portrait.storagePath};
      }
      if deleteError.Some? {
        return Fail(deleteError.value);
      }
      RemoveKeepsInvariants(rows, portraitId, uid);
      rows := Remove(rows, portraitId, uid);
      if portrait.isActive && promoteApplied && CountOwned(rows, uid) > 0 {
        MostRecentExists(rows, uid);
        var k :| IsMostRecent(rows, k, uid);
        RemovedWasOnlyActive(old(rows), portraitId, uid);
        PromoteKeepsInvariants(rows, k, uid);
        rows := rows[k := rows[k].(isActive := true)];
      }
      r := Pass;
    }

    /** `setActivePortrait(portraitId)` */
    method SetActive(user: Option<AuthUser>, portraitId: string, isUuid: string -> bool,
                     deactivateError: Option<string>, activateError: Option<string>)
      returns (r: Outcome)
      requires Valid()
      modifies this`rows
      ensures Valid()
      ensures user.None? ==> r == Fail(NotAuthenticated) && rows == old(rows)
      ensures user.Some? && !isUuid(portraitId) ==> r == Fail(InvalidPortraitId) && rows == old(rows)
      ensures user.Some? && isUuid(portraitId) && deactivateError.Some? ==>
                r == Fail(deactivateError.value) && rows == old(rows)
      ensures user.Some? && isUuid(portraitId) && deactivateError.None? && activateError.Some? ==>
                r == Fail(activateError.value) && rows == DeactivateAll(old(rows), user.value.id)
      ensures r == Pass <==> user.Some? && isUuid(portraitId) && deactivateError.None? && activateError.None?
      ensures r == Pass ==> rows == Activate(DeactivateAll(old(rows), user.value.id), portraitId, user.value.id)
    {
      if user.None? {
        return Fail(NotAuthenticated);
      }
      if !isUuid(portraitId) {
        return Fail(InvalidPortraitId);
      }
      var uid := user.value.id;
      if deactivateError.Some? {
        return Fail(deactivateError.value);
      }
      DeactivateKeepsInvariants(rows, uid);
      SetActiveKeepsInvariants(rows, portraitId, uid);
      rows := DeactivateAll(rows, uid);
      if activateError.Some? {
        return Fail(activateError.value);
      }
      rows := Activate(rows, portraitId, uid);
      r := Pass;
    }

    /** `updatePortraitLabel(input)`: only the label of the matching
        (id, user) row changes. */
    method UpdateLabel(user: Option<AuthUser>, input: UpdateLabelInput, isUuid: string -> bool,
                       writeError: Option<string>)
      returns (r: Outcome)
      requires Valid()
      modifies this`rows
      ensures Valid()
      ensures user.None? ==> r == Fail(NotAuthenticated) && rows == old(rows)
      ensures user.Some? && ParseUpdateLabel(input, isUuid).Err? ==>
                r == Fail(ParseUpdateLabel(input, isUuid).error) && rows == old(rows)
      ensures user.Some? && ParseUpdateLabel(input, isUuid).Ok? && writeError.Some? ==>
                r == Fail(writeError.value) && rows == old(rows)
      ensures r == Pass <==> user.Some? && ParseUpdateLabel(input, isUuid).Ok? && writeError.None?
      ensures r == Pass ==> rows == Relabel(old(rows), input.portraitId, user.value.id, input.labelText)
    {
      if user.None? {
        return Fail(NotAuthenticated);
      }
      var parsed := ParseUpdateLabel(input, isUuid);
      if parsed.Err? {
        return Fail(parsed.error);
      }
      if writeError.Some? {
        return Fail(writeError.value);
      }
      rows := Relabel(rows, input.portraitId, user.value.id, input.labelText);
      r := Pass;
    }
  }
}
