/** `PermitApplicationService`: create, list, read, update, change the status of and
    delete permit applications, with the ownership check on read, update and delete.
    The database table is the map `records` from id to row. What the database
    generates (the id, `submitted_at`, the default `application_status`) is passed in.

    The service's own signature is modelled: an optional caller id and an optional
    caller role. The controller does not call it that way; see module Controllers. */
module PermitService {
  import opened Domain
  import opened ResponseHelper
  import opened ExceptionFilter
  import opened PermitDto

  const NotFoundMessage := "Permit application not found"

  /** The ownership test of findOne, update and remove:
      `userRole !== Role.ADMIN && application.userId !== userId`.
      A null owner is never strictly equal to the caller's id, not even to an undefined one. */
  function Denied(owner: Option<string>, userId: Option<string>, userRole: Option<Role>): (denied: bool)
    ensures userRole == Some(ADMIN) ==> !denied
    ensures userRole != Some(ADMIN) ==> (denied <==> owner.None? || userId != owner)
  {
    userRole != Some(ADMIN) && !(owner.Some? && userId == owner)
  }

  /** The rows findAll returns: all of them for ADMIN, otherwise those the owner filter
      `{ userId: userId || undefined }` keeps, where an undefined filter value is dropped by
      the query, so it filters nothing. */
  function Listed(a: PermitApplication, userId: Option<string>, userRole: Option<Role>): (listed: bool)
    ensures userRole == Some(ADMIN) ==> listed
    ensures userRole != Some(ADMIN) && userId.Some? && userId.value != "" ==> (listed <==> a.owner == userId)
    ensures userId.None? || userId == Some("") ==> listed
  {
    userRole == Some(ADMIN) || OrUndefined(userId).None? || a.owner == OrUndefined(userId)
  }

  /** Ordered by `submitted_at` descending. */
  predicate NewestFirst(s: seq<PermitApplication>)
  {
    forall i, j :: 0 <= i < j < |s| ==> s[i].submittedAt >= s[j].submittedAt
  }

  predicate DistinctIds(s: seq<PermitApplication>)
  {
    forall i, j :: 0 <= i < j < |s| ==> s[i].id != s[j].id
  }

  /** Puts one more row into a newest-first list (the ordering the query asks the database for). */
  function InsertNewestFirst(s: seq<PermitApplication>, x: PermitApplication): (r: seq<PermitApplication>)
    requires NewestFirst(s) && DistinctIds(s)
    requires forall y :: y in s ==> y.id != x.id
    ensures NewestFirst(r) && DistinctIds(r)
    ensures |r| == |s| + 1
    ensures forall y :: y in r <==> y in s || y == x
  {
    if s == [] then
      [x]
    else if x.submittedAt >= s[0].submittedAt then
      HeadIsNewest(s);
      Cons(x, s);
      [x] + s
    else
      var rest := InsertNewestFirst(s[1..], x);
      HeadIsNewest(s);
      Cons(s[0], rest);
      [s[0]] + rest
  }

  lemma HeadIsNewest(s: seq<PermitApplication>)
    requires NewestFirst(s) && DistinctIds(s) && |s| > 0
    ensures forall y :: y in s ==> s[0].submittedAt >= y.submittedAt
    ensures forall y :: y in s[1..] ==> s[0].id != y.id
  {
    forall y | y in s ensures s[0].submittedAt >= y.submittedAt {
      var k :| 0 <= k < |s| && s[k] == y;
    }
    forall y | y in s[1..] ensures s[0].id != y.id {
      var k :| 0 <= k < |s[1..]| && s[1..][k] == y;
      assert s[k + 1] == y;
    }
  }

  lemma Cons(h: PermitApplication, t: seq<PermitApplication>)
    requires NewestFirst(t) && DistinctIds(t)
    requires forall y :: y in t ==> h.submittedAt >= y.submittedAt && h.id != y.id
    ensures NewestFirst([h] + t) && DistinctIds([h] + t)
  {
    var s := [h] + t;
    forall i, j | 0 <= i < j < |s| ensures s[i].submittedAt >= s[j].submittedAt && s[i].id != s[j].id {
      if i > 0 {
        assert s[i] == t[i - 1] && s[j] == t[j - 1];
      } else {
        assert s[j] == t[j - 1];
        assert s[j] in t;
      }
    }
  }

  /** The patch sends `null` for some column. */
  predicate HasNullMember(patch: UpdatePermitApplicationDto)
  {
    patch.applicantName.SentNull? || patch.applicantEmail.SentNull? || patch.permitType.SentNull?
  }

  /** The new value of one column: a given string replaces it, an omitted member keeps it. */
  function Patched(m: PatchMember, current: string): string
  {
    if m.Given? then m.value else current
  }

  /** `prisma.update({ data: updateDto })`: a given member replaces its column, an omitted one
      leaves it, and no other column is touched. The three columns are required strings, so a
      `null` member is refused by the database and there is no new row. */
  function ApplyPatch(a: PermitApplication, patch: UpdatePermitApplicationDto): (b: Option<PermitApplication>)
    ensures b.None? <==> HasNullMember(patch)
    ensures b.Some? ==> b.value.id == a.id && b.value.owner == a.owner && b.value.status == a.status
                        && b.value.submittedAt == a.submittedAt
    ensures b.Some? ==> b.value.applicantName == (if patch.applicantName.Given? then patch.applicantName.value else a.applicantName)
    ensures b.Some? ==> b.value.applicantEmail == (if patch.applicantEmail.Given? then patch.applicantEmail.value else a.applicantEmail)
    ensures b.Some? ==> b.value.permitType == (if patch.permitType.Given? then patch.permitType.value else a.permitType)
  {
    if HasNullMember(patch) then None
    else Some(a.(applicantName := Patched(patch.applicantName, a.applicantName),
                 applicantEmail := Patched(patch.applicantEmail, a.applicantEmail),
                 permitType := Patched(patch.permitType, a.permitType)))
  }

  class PermitApplicationService {
    var records: map<string, PermitApplication>

    /** Every row is stored under its own id. */
    ghost predicate Valid()
      reads this
    {
      forall k :: k in records ==> records[k].id == k
    }

    constructor ()
      ensures Valid() && records == map[]
    {
      records := map[];
    }

    /** `create`: stores exactly the three input fields, owned by `userId`; the status is the
        store's default, not set by the service. */
    method Create(dto: CreatePermitApplicationDto, userId: string,
                  newId: string, submittedAt: int, defaultStatus: ApplicationStatus)
      returns (r: ApiResponse<PermitApplication>)
      requires Valid() && newId !in records
      modifies this
      ensures Valid()
      ensures records == old(records)[newId := PermitApplication(newId, dto.applicantName, dto.applicantEmail,
                                                                 dto.permitType, defaultStatus, submittedAt, Some(userId))]
      ensures IsSuccessResponse(r) && r.statusCode == 201 && r.data == Some(records[newId])
      ensures r.message == "Permit application created successfully"
    {
      var application := PermitApplication(newId, dto.applicantName, dto.applicantEmail, dto.permitType,
                                           defaultStatus, submittedAt, Some(userId));
      records := records[newId := application];
      r := Success(Some(application), Some("Permit application created successfully"), Some(201), None);
    }

    /** `findAll`: every row for ADMIN, otherwise the rows the owner filter keeps, newest first,
        each row once. */
    method FindAll(userId: Option<string>, userRole: Option<Role>) returns (r: ApiResponse<seq<PermitApplication>>)
      requires Valid()
      ensures IsSuccessResponse(r) && r.statusCode == 200 && r.data.Some?
      ensures r.message == "Permit applications retrieved successfully"
      ensures forall a :: a in r.data.value <==> a in records.Values && Listed(a, userId, userRole)
      ensures NewestFirst(r.data.value) && DistinctIds(r.data.value)
    {
      var pending := records.Keys;
      var found: seq<PermitApplication> := [];
      while pending != {}
        invariant pending <= records.Keys
        invariant NewestFirst(found) && DistinctIds(found)
        invariant forall a :: a in found ==> a.id in records.Keys - pending
        invariant forall a :: a in found <==>
                    a.id in records.Keys - pending && records[a.id] == a && Listed(a, userId, userRole)
        decreases pending
      {
        var k :| k in pending;
        pending := pending - {k};
        if Listed(records[k], userId, userRole) {
          found := InsertNewestFirst(found, records[k]);
        }
      }
      r := Success(Some(found), Some("Permit applications retrieved successfully"), None, None);
    }

    /** `findOne`: a missing id is NotFound whoever asks; an existing row is Forbidden to a
        caller the ownership test denies, and returned otherwise. */
    method FindOne(id: string, userId: Option<string>, userRole: Option<Role>) returns (r: Outcome<PermitApplication>)
      ensures id !in records ==> r == Thrown(Throw(NotFoundException, NotFoundMessage))
      ensures id in records && Denied(records[id].owner, userId, userRole) ==>
                r == Thrown(Throw(ForbiddenException, "You do not have permission to view this application"))
      ensures id in records && !Denied(records[id].owner, userId, userRole) ==>
                r.Ok? && IsSuccessResponse(r.response) && r.response.data == Some(records[id])
                && r.response.statusCode == 200 && r.response.message == "Permit application retrieved successfully"
    {
      if id !in records {
        return Thrown(Throw(NotFoundException, NotFoundMessage));
      }
      var application := records[id];
      if userRole != Some(ADMIN) && !(application.owner.Some? && userId == application.owner) {
        return Thrown(Throw(ForbiddenException, "You do not have permission to view this application"));
      }
      r := Ok(Success(Some(application), Some("Permit application retrieved successfully"), None, None));
    }

    /** `update`: existence, then ownership, then the patch; the table changes only on success
        and only in the patched columns of the target row. A patch that sends `null` for a
        column passes validation but is refused by the database with `nullRejected` (the query
        library's validation error), leaving the table unchanged. */
    method Update(id: string, patch: UpdatePermitApplicationDto, userId: Option<string>, userRole: Option<Role>,
                  nullRejected: Exception)
      returns (r: Outcome<PermitApplication>)
      requires Valid()
      modifies this
      ensures Valid()
      ensures id !in old(records) ==>
                r == Thrown(Throw(NotFoundException, NotFoundMessage)) && records == old(records)
      ensures id in old(records) && Denied(old(records)[id].owner, userId, userRole) ==>
                r == Thrown(Throw(ForbiddenException, "You do not have permission to update this application"))
                && records == old(records)
      ensures id in old(records) && !Denied(old(records)[id].owner, userId, userRole) && HasNullMember(patch) ==>
                r == Thrown(nullRejected) && records == old(records)
      ensures id in old(records) && !Denied(old(records)[id].owner, userId, userRole) && !HasNullMember(patch) ==>
                records == old(records)[id := ApplyPatch(old(records)[id], patch).value]
                && r.Ok? && IsSuccessResponse(r.response) && r.response.data == Some(records[id])
                && r.response.message == "Permit application updated successfully"
    {
      if id !in records {
        return Thrown(Throw(NotFoundException, NotFoundMessage));
      }
      var existing := records[id];
      if userRole != Some(ADMIN) && !(existing.owner.Some? && userId == existing.owner) {
        return Thrown(Throw(ForbiddenException, "You do not have permission to update this application"));
      }
      var patched := ApplyPatch(existing, patch);
      if patched.None? {
        return Thrown(nullRejected);
      }
      var updated := patched.value;
      records := records[id := updated];
      r := Ok(Success(Some(updated), Some("Permit application updated successfully"), None, None));
    }

    /** `updateStatus`: no ownership check; an existing row gets the new status and nothing else changes. */
    method UpdateStatus(id: string, dto: UpdateApplicationStatusDto) returns (r: Outcome<PermitApplication>)
      requires Valid()
      modifies this
      ensures Valid()
      ensures id !in old(records) ==>
                r == Thrown(Throw(NotFoundException, NotFoundMessage)) && records == old(records)
      ensures id in old(records) ==>
                records == old(records)[id := old(records)[id].(status := dto.applicationStatus)]
                && r.Ok? && IsSuccessResponse(r.response) && r.response.data == Some(records[id])
                && r.response.message == "Permit application status updated successfully"
    {
      if id !in records {
        return Thrown(Throw(NotFoundException, NotFoundMessage));
      }
      var updated := records[id].(status := dto.applicationStatus);
      records := records[id := updated];
      r := Ok(Success(Some(updated), Some("Permit application status updated successfully"), None, None));
    }

    /** `remove`: existence, then ownership; on success only the target row is gone and the
        envelope's data is null; on failure the table is unchanged. */
    method Remove(id: string, userId: Option<string>, userRole: Option<Role>) returns (r: Outcome<PermitApplication>)
      requires Valid()
      modifies this
      ensures Valid()
      ensures id !in old(records) ==>
                r == Thrown(Throw(NotFoundException, NotFoundMessage)) && records == old(records)
      ensures id in old(records) && Denied(old(records)[id].owner, userId, userRole) ==>
                r == Thrown(Throw(ForbiddenException, "You do not have permission to delete this application"))
                && records == old(records)
      ensures id in old(records) && !Denied(old(records)[id].owner, userId, userRole) ==>
                records == old(records) - {id}
                && r.Ok? && IsSuccessResponse(r.response) && r.response.data.None?
                && r.response.message == "Permit application deleted successfully"
    {
      if id !in records {
        return Thrown(Throw(NotFoundException, NotFoundMessage));
      }
      var existing := records[id];
      if userRole != Some(ADMIN) && !(existing.owner.Some? && userId == existing.owner) {
        return Thrown(Throw(ForbiddenException, "You do not have permission to delete this application"));
      }
      records := records - {id};
      r := Ok(Success(None, Some("Permit application deleted successfully"), None, None));
    }
  }

  // ----- The ownership policy -----

  /** ADMIN passes the ownership test for every row. */
  lemma AdminIsNeverDenied(owner: Option<string>, userId: Option<string>)
    ensures !Denied(owner, userId, Some(ADMIN))
  {
  }

  /** A non-ADMIN caller passes exactly when the row has an owner and it is the caller. */
  lemma NonAdminNeedsOwnership(owner: Option<string>, userId: Option<string>, userRole: Option<Role>)
    requires userRole != Some(ADMIN)
    ensures !Denied(owner, userId, userRole) <==> owner.Some? && userId == owner
  {
  }

  /** A row without an owner is closed to every non-ADMIN caller. */
  lemma UnownedRowIsAdminOnly(userId: Option<string>, userRole: Option<Role>)
    ensures Denied(None, userId, userRole) <==> userRole != Some(ADMIN)
  {
  }

  // ----- The patch -----

  /** Applying the same patch twice is applying it once. */
  lemma PatchIsIdempotent(a: PermitApplication, patch: UpdatePermitApplicationDto)
    ensures ApplyPatch(a, patch).Some? ==> ApplyPatch(ApplyPatch(a, patch).value, patch) == ApplyPatch(a, patch)
  {
  }

  /** An empty patch changes nothing. */
  lemma EmptyPatchIsIdentity(a: PermitApplication)
    ensures ApplyPatch(a, UpdatePermitApplicationDto(Omitted, Omitted, Omitted)) == Some(a)
  {
  }

  /** A non-ADMIN caller with an id sees exactly its own rows; without one (or with an empty
      one) the filter is dropped and it sees every row. */
  lemma NonAdminListing(a: PermitApplication, userId: Option<string>, userRole: Option<Role>)
    requires userRole != Some(ADMIN)
    ensures userId.Some? && userId.value != "" ==> (Listed(a, userId, userRole) <==> a.owner == userId)
    ensures userId.None? || userId == Some("") ==> Listed(a, userId, userRole)
  {
  }

  /** Creating a row and reading it back as its owner returns the three input fields, the
      caller as owner, the store's default status and the store's timestamp. */
  method CreateThenFindOne(s: PermitApplicationService, dto: CreatePermitApplicationDto, userId: string,
                           newId: string, submittedAt: int, defaultStatus: ApplicationStatus)
    returns (found: Outcome<PermitApplication>)
    requires s.Valid() && newId !in s.records
    modifies s
    ensures found.Ok? && found.response.data ==
              Some(PermitApplication(newId, dto.applicantName, dto.applicantEmail, dto.permitType,
                                     defaultStatus, submittedAt, Some(userId)))
  {
    var created := s.Create(dto, userId, newId, submittedAt, defaultStatus);
    found := s.FindOne(newId, Some(userId), Some(USER));
  }
}
