/** The request bodies of the permit-application routes and the class-validator
    rules on them. A body is a JSON object; a validated body becomes the typed DTO,
    which holds only the declared fields. The email check of `@IsEmail()` is a parameter. */
module PermitDto {
  import opened Domain

  datatype CreatePermitApplicationDto =
    CreatePermitApplicationDto(applicantName: string, applicantEmail: string, permitType: string)

  /** A member of the partial patch: left out of the body, sent as `null` (which
      `@IsOptional()` lets through like an absent member), or a string. */
  datatype PatchMember = Omitted | SentNull | Given(value: string)

  /** The partial patch: an omitted member leaves that column unchanged. */
  datatype UpdatePermitApplicationDto =
    UpdatePermitApplicationDto(applicantName: PatchMember, applicantEmail: PatchMember, permitType: PatchMember)

  datatype UpdateApplicationStatusDto = UpdateApplicationStatusDto(applicationStatus: ApplicationStatus)

  type Body = map<string, Json>

  const NameKey := "applicant_name"
  const EmailKey := "applicant_email"
  const PermitTypeKey := "permit_type"
  const StatusKey := "application_status"

  /** `@IsString() @IsNotEmpty()` on a required member. */
  predicate RequiredString(body: Body, key: string)
  {
    key in body && body[key].JStr? && body[key].s != ""
  }

  /** `@IsEmail() @IsNotEmpty()` on a required member. */
  predicate RequiredEmail(body: Body, key: string, isEmail: string -> bool)
  {
    key in body && body[key].JStr? && body[key].s != "" && isEmail(body[key].s)
  }

  /** `@IsOptional()` with `@IsString()` or `@IsEmail()`: absent, `null` (both skip the other
      validators), or a string that passes. */
  predicate OptionalString(body: Body, key: string, emailRule: bool, isEmail: string -> bool)
  {
    key !in body || body[key] == JNull || (body[key].JStr? && (emailRule ==> isEmail(body[key].s)))
  }

  function OptionalValue(body: Body, key: string): PatchMember
  {
    if key !in body then Omitted
    else if body[key] == JNull then SentNull
    else if body[key].JStr? then Given(body[key].s)
    else Omitted
  }

  /** `CreatePermitApplicationDto`: all three members are required non-empty strings and the
      email must be an email; nothing else of the body is kept. */
  function ValidateCreate(body: Body, isEmail: string -> bool): (r: Option<CreatePermitApplicationDto>)
    ensures r.Some? <==>
              RequiredString(body, NameKey) && RequiredEmail(body, EmailKey, isEmail) && RequiredString(body, PermitTypeKey)
    ensures r.Some? ==> body[NameKey] == JStr(r.value.applicantName) && r.value.applicantName != ""
    ensures r.Some? ==> body[EmailKey] == JStr(r.value.applicantEmail) && isEmail(r.value.applicantEmail)
    ensures r.Some? ==> body[PermitTypeKey] == JStr(r.value.permitType) && r.value.permitType != ""
  {
    if RequiredString(body, NameKey) && RequiredEmail(body, EmailKey, isEmail) && RequiredString(body, PermitTypeKey)
    then Some(CreatePermitApplicationDto(body[NameKey].s, body[EmailKey].s, body[PermitTypeKey].s))
    else None
  }

  /** `UpdatePermitApplicationDto`: each member is optional and may be `null`; a present
      string email must be an email and the other present members must be strings. */
  function ValidateUpdate(body: Body, isEmail: string -> bool): (r: Option<UpdatePermitApplicationDto>)
    ensures r.Some? <==>
              OptionalString(body, NameKey, false, isEmail) && OptionalString(body, EmailKey, true, isEmail)
              && OptionalString(body, PermitTypeKey, false, isEmail)
    ensures r.Some? ==> (r.value.applicantName.Omitted? <==> NameKey !in body)
                        && (r.value.applicantEmail.Omitted? <==> EmailKey !in body)
                        && (r.value.permitType.Omitted? <==> PermitTypeKey !in body)
    ensures r.Some? ==> (r.value.applicantName.SentNull? <==> NameKey in body && body[NameKey] == JNull)
                        && (r.value.applicantEmail.SentNull? <==> EmailKey in body && body[EmailKey] == JNull)
                        && (r.value.permitType.SentNull? <==> PermitTypeKey in body && body[PermitTypeKey] == JNull)
    ensures r.Some? && r.value.applicantName.Given? ==> body[NameKey] == JStr(r.value.applicantName.value)
    ensures r.Some? && r.value.applicantEmail.Given? ==>
              body[EmailKey] == JStr(r.value.applicantEmail.value) && isEmail(r.value.applicantEmail.value)
    ensures r.Some? && r.value.permitType.Given? ==> body[PermitTypeKey] == JStr(r.value.permitType.value)
  {
    if OptionalString(body, NameKey, false, isEmail) && OptionalString(body, EmailKey, true, isEmail)
       && OptionalString(body, PermitTypeKey, false, isEmail)
    then Some(UpdatePermitApplicationDto(OptionalValue(body, NameKey), OptionalValue(body, EmailKey),
                                         OptionalValue(body, PermitTypeKey)))
    else None
  }

  /** `UpdateApplicationStatusDto`: `application_status` is required and must be a member of
      the `ApplicationStatus` enum. */
  function ValidateStatus(body: Body): (r: Option<UpdateApplicationStatusDto>)
    ensures r.Some? <==> StatusKey in body && body[StatusKey].JStr? && body[StatusKey].s in {"Pending", "Approved", "Rejected"}
    ensures r.Some? ==> body[StatusKey] == JStr(StatusName(r.value.applicationStatus))
  {
    if StatusKey in body && body[StatusKey].JStr? && ParseStatus(body[StatusKey].s).Some?
    then Some(UpdateApplicationStatusDto(ParseStatus(body[StatusKey].s).value))
    else None
  }

  /** A client cannot set the status or the owner when creating: whatever else the body holds,
      only the three declared members decide the DTO. */
  lemma CreateIgnoresOtherMembers(body: Body, isEmail: string -> bool, key: string, v: Json)
    requires key !in {NameKey, EmailKey, PermitTypeKey}
    ensures ValidateCreate(body[key := v], isEmail) == ValidateCreate(body, isEmail)
  {
  }

  /** The patch type has no status member: on the assumption that the validation pipe strips
      undeclared members, adding `application_status` (or any other undeclared member) to a
      PATCH body does not change the patch. */
  lemma UpdateIgnoresOtherMembers(body: Body, isEmail: string -> bool, key: string, v: Json)
    requires key !in {NameKey, EmailKey, PermitTypeKey}
    ensures ValidateUpdate(body[key := v], isEmail) == ValidateUpdate(body, isEmail)
  {
  }

  /** `@IsOptional()` lets a `null` member through, and it reaches the patch as `null`. */
  lemma NullPatchMemberPasses(isEmail: string -> bool)
    ensures ValidateUpdate(map[NameKey := JNull], isEmail) == Some(UpdatePermitApplicationDto(SentNull, Omitted, Omitted))
    ensures ValidateUpdate(map[EmailKey := JNull], isEmail) == Some(UpdatePermitApplicationDto(Omitted, SentNull, Omitted))
  {
  }

  /** Every status value, sent as its enum string, validates to itself. */
  lemma StatusBodyRoundTrip(s: ApplicationStatus)
    ensures ValidateStatus(map[StatusKey := JStr(StatusName(s))]) == Some(UpdateApplicationStatusDto(s))
  {
    StatusNameRoundTrip(s);
  }
}
