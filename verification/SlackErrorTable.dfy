/** No literal of the classifier's table is shadowed: each one gets the code of its own group. */
module SlackErrorTable {
  import opened Text
  import opened SlackErrors

  // ----- The literals before each group

  const BEFORE_RATE_LIMIT := AUTHENTICATION + PERMISSION
  const BEFORE_GONE := BEFORE_RATE_LIMIT + RATE_LIMIT
  const BEFORE_NO_SUBTEAM := BEFORE_GONE + GONE
  const BEFORE_ALREADY_MEMBER := BEFORE_NO_SUBTEAM + NO_SUBTEAM
  const BEFORE_ARGUMENT := BEFORE_ALREADY_MEMBER + ALREADY_MEMBER
  const BEFORE_TWO_FACTOR := BEFORE_ARGUMENT + ARGUMENT
  const BEFORE_SERVER := BEFORE_TWO_FACTOR + TWO_FACTOR
  const BEFORE_FATAL := BEFORE_SERVER + SERVER
  const BEFORE_DEPRECATED := BEFORE_FATAL + FATAL

  lemma MatchesAnyConcat(s: string, xs: seq<string>, ys: seq<string>)
    ensures MatchesAny(s, xs + ys) <==> MatchesAny(s, xs) || MatchesAny(s, ys)
  {
    if k :| 0 <= k < |xs| && Contains(s, xs[k]) {
      assert (xs + ys)[k] == xs[k];
    }
    if k :| 0 <= k < |ys| && Contains(s, ys[k]) {
      assert (xs + ys)[|xs| + k] == ys[k];
    }
  }

  lemma Regrouped(s: string, a: seq<string>, b: seq<string>, c: seq<string>, d: seq<string>, e: seq<string>)
    ensures MatchesAny(s, a + b + c + d + e) <==> MatchesAny(s, a) || MatchesAny(s, b + c + d + e)
  {
    assert a + b + c + d + e == a + (b + c + d + e);
    MatchesAnyConcat(s, a, b + c + d + e);
  }

  /** A text has the priority of a group at the least exactly when no literal before that group is in it. */
  lemma Priorities(s: string)
    ensures MatchesAny(s, AUTHENTICATION) <==> Priority(GROUPS, s) < 1
    ensures MatchesAny(s, BEFORE_RATE_LIMIT) <==> Priority(GROUPS, s) < 2
    ensures MatchesAny(s, BEFORE_GONE) <==> Priority(GROUPS, s) < 3
    ensures MatchesAny(s, BEFORE_NO_SUBTEAM) <==> Priority(GROUPS, s) < 4
    ensures MatchesAny(s, BEFORE_ALREADY_MEMBER) <==> Priority(GROUPS, s) < 5
    ensures MatchesAny(s, BEFORE_ARGUMENT) <==> Priority(GROUPS, s) < 6
    ensures MatchesAny(s, BEFORE_TWO_FACTOR) <==> Priority(GROUPS, s) < 7
    ensures MatchesAny(s, BEFORE_SERVER) <==> Priority(GROUPS, s) < 8
    ensures MatchesAny(s, BEFORE_FATAL) <==> Priority(GROUPS, s) < 9
    ensures MatchesAny(s, BEFORE_DEPRECATED) <==> Priority(GROUPS, s) < 10
  {
    Cascade(s);
    MatchesAnyConcat(s, AUTHENTICATION, PERMISSION);
    MatchesAnyConcat(s, BEFORE_RATE_LIMIT, RATE_LIMIT);
    MatchesAnyConcat(s, BEFORE_GONE, GONE);
    MatchesAnyConcat(s, BEFORE_NO_SUBTEAM, NO_SUBTEAM);
    MatchesAnyConcat(s, BEFORE_ALREADY_MEMBER, ALREADY_MEMBER);
    MatchesAnyConcat(s, BEFORE_ARGUMENT, ARGUMENT);
    MatchesAnyConcat(s, BEFORE_TWO_FACTOR, TWO_FACTOR);
    MatchesAnyConcat(s, BEFORE_SERVER, SERVER);
    MatchesAnyConcat(s, BEFORE_FATAL, FATAL);
  }

  // ----- Walls: what no short text without certain letters contains

  predicate Lean(s: string, n: nat, letters: set<char>) {
    |s| <= n && forall c :: c in letters ==> c !in s
  }

  /** A text that is short and lacks some letters contains none of the literals when each of those is
      longer or has one of the letters. */
  lemma NotAmong(s: string, literals: seq<string>, n: nat, letters: set<char>)
    requires Lean(s, n, letters)
    requires forall l :: l in literals ==> !Lean(l, n, letters) || !Contains(s, l)
    ensures !MatchesAny(s, literals)
  {
  }

  lemma EndsElsewhere(s: string, p: string)
    requires 0 < |p| <= |s| && p[|p| - 1] !in s[|p| - 1..]
    ensures !Contains(s, p)
  {
  }

  lemma NoAuthentication(s: string)
    requires Lean(s, 23, {'h', 'v', 'x'})
    ensures !MatchesAny(s, AUTHENTICATION)
  {
    NotAmong(s, AUTHENTICATION, 23, {'h', 'v', 'x'});
  }

  lemma NothingBeforeRateLimit(s: string)
    requires Lean(s, 11, {'_'})
    ensures !MatchesAny(s, BEFORE_RATE_LIMIT)
  {
    NotAmong(s, BEFORE_RATE_LIMIT, 11, {'_'});
  }

  lemma NothingBeforeGone(s: string)
    requires Lean(s, 20, {'h', 'i', 'k'})
    ensures !MatchesAny(s, BEFORE_GONE)
  {
    NotAmong(s, BEFORE_GONE, 20, {'h', 'i', 'k'});
  }

  lemma NothingBeforeNoSubteam(s: string)
    requires Lean(s, 15, {'d', 'i'})
    ensures !MatchesAny(s, BEFORE_NO_SUBTEAM)
  {
    NotAmong(s, BEFORE_NO_SUBTEAM, 15, {'d', 'i'});
  }

  lemma NothingBeforeAlreadyMember(s: string)
    requires Lean(s, 24, {'i', 'n'}) && !Contains(s, "user_already_deleted")
    ensures !MatchesAny(s, BEFORE_ALREADY_MEMBER)
  {
    NotAmong(s, BEFORE_ALREADY_MEMBER, 24, {'i', 'n'});
  }

  lemma NothingBeforeLimit(s: string)
    requires Lean(s, 14, {'a', 'n'})
    ensures !MatchesAny(s, BEFORE_ARGUMENT)
  {
    NotAmong(s, BEFORE_ARGUMENT, 14, {'a', 'n'});
  }

  lemma NothingBeforeMissing(s: string)
    requires Lean(s, 16, {'d', 'o'})
    ensures !MatchesAny(s, BEFORE_ARGUMENT)
  {
    NotAmong(s, BEFORE_ARGUMENT, 16, {'d', 'o'});
  }

  lemma NothingBeforeArgName(s: string)
    requires Lean(s, 16, {'s', 't'})
    ensures !MatchesAny(s, BEFORE_ARGUMENT)
  {
    NotAmong(s, BEFORE_ARGUMENT, 16, {'s', 't'});
  }

  lemma NothingBeforeArrayOrForm(s: string)
    requires Lean(s, 17, {'e', 'h'})
    ensures !MatchesAny(s, BEFORE_ARGUMENT)
  {
    NotAmong(s, BEFORE_ARGUMENT, 17, {'e', 'h'});
  }

  lemma NothingBeforePostType(s: string)
    requires Lean(s, 17, {'c', 'h', 'r'})
    ensures !MatchesAny(s, BEFORE_ARGUMENT)
  {
    NotAmong(s, BEFORE_ARGUMENT, 17, {'c', 'h', 'r'});
  }

  lemma NothingBeforeArguments(s: string)
    requires Lean(s, 17, {'c', 'h', 'o'}) && !Contains(s, "ratelimited")
    ensures !MatchesAny(s, BEFORE_ARGUMENT)
  {
    NotAmong(s, BEFORE_ARGUMENT, 17, {'c', 'h', 'o'});
  }

  lemma NothingBeforeCharset(s: string)
    requires Lean(s, 15, {'k', 'm', 'u'}) && !Contains(s, "access_denied")
    ensures !MatchesAny(s, BEFORE_ARGUMENT)
  {
    NotAmong(s, BEFORE_ARGUMENT, 15, {'k', 'm', 'u'});
  }

  lemma NothingBeforeTwoFactor(s: string)
    requires Lean(s, 25, {'l', 'n'})
    ensures !MatchesAny(s, BEFORE_TWO_FACTOR)
  {
    NothingBeforeArgument(s);
    NotAmong(s, ARGUMENT, 25, {'l', 'n'});
    MatchesAnyConcat(s, BEFORE_ARGUMENT, ARGUMENT);
  }

  lemma NothingBeforeArgument(s: string)
    requires Lean(s, 25, {'l', 'n'})
    ensures !MatchesAny(s, BEFORE_ARGUMENT)
  {
    NotAmong(s, BEFORE_ARGUMENT, 25, {'l', 'n'});
  }

  lemma NothingBeforeServer(s: string)
    requires Lean(s, 15, {'b', 'd', 'p'})
    ensures !MatchesAny(s, BEFORE_SERVER)
  {
    NotAmong(s, BEFORE_SERVER, 15, {'b', 'd', 'p'});
  }

  lemma NothingBeforeUnavailable(s: string)
    requires Lean(s, 19, {'d', 'g', 'o'})
    ensures !MatchesAny(s, BEFORE_SERVER)
  {
    NothingBeforeArgumentEither(s);
    NotAmong(s, ARGUMENT, 19, {'d', 'g', 'o'});
    NotAmong(s, TWO_FACTOR, 19, {'d', 'g', 'o'});
    MatchesAnyConcat(s, BEFORE_ARGUMENT, ARGUMENT);
    MatchesAnyConcat(s, BEFORE_TWO_FACTOR, TWO_FACTOR);
  }

  lemma NothingBeforeArgumentEither(s: string)
    requires Lean(s, 19, {'d', 'g', 'o'})
    ensures !MatchesAny(s, BEFORE_ARGUMENT)
  {
    NotAmong(s, BEFORE_ARGUMENT, 19, {'d', 'g', 'o'});
  }

  lemma NothingBeforeFatal(s: string)
    requires Lean(s, 11, {'d'})
    ensures !MatchesAny(s, BEFORE_FATAL)
  {
    NotAmong(s, BEFORE_FATAL, 11, {'d'});
  }

  lemma NothingBeforeDeprecated(s: string)
    requires Lean(s, 19, {'k', 'l', 's', 'u'})
    ensures !MatchesAny(s, BEFORE_DEPRECATED)
  {
    NothingUpToMembers(s);
    NotAmong(s, ARGUMENT + TWO_FACTOR + SERVER + FATAL, 19, {'k', 'l', 's', 'u'});
    Regrouped(s, BEFORE_ARGUMENT, ARGUMENT, TWO_FACTOR, SERVER, FATAL);
  }

  lemma NothingUpToMembers(s: string)
    requires Lean(s, 19, {'k', 'l', 's', 'u'})
    ensures !MatchesAny(s, BEFORE_ARGUMENT)
  {
    NotAmong(s, BEFORE_ARGUMENT, 19, {'k', 'l', 's', 'u'});
  }

  // ----- The whole table

  lemma LeanPermission(k: nat)
    requires k < |PERMISSION|
    ensures Lean(PERMISSION[k], 23, {'h', 'v', 'x'})
  {
    LeanScopeAndDenied();
    LeanTokenType();
    LeanTeamAccess();
    LeanNoPermissionAndEkm();
  }

  lemma LeanScopeAndDenied()
    ensures Lean("missing_scope", 23, {'h', 'v', 'x'}) && Lean("access_denied", 23, {'h', 'v', 'x'})
  {
  }

  lemma LeanTokenType()
    ensures Lean("not_allowed_token_type", 23, {'h', 'v', 'x'})
  {
  }

  lemma LeanTeamAccess()
    ensures Lean("team_access_not_granted", 23, {'h', 'v', 'x'})
  {
  }

  lemma LeanNoPermissionAndEkm()
    ensures Lean("no_permission", 23, {'h', 'v', 'x'}) && Lean("ekm_access_denied", 23, {'h', 'v', 'x'})
  {
  }

  lemma PermissionUnshadowed(k: nat)
    requires k < |PERMISSION|
    ensures !MatchesAny(PERMISSION[k], AUTHENTICATION)
  {
    LeanPermission(k);
    NoAuthentication(PERMISSION[k]);
  }

  lemma RateLimitUnshadowed(k: nat)
    requires k < |RATE_LIMIT|
    ensures !MatchesAny(RATE_LIMIT[k], BEFORE_RATE_LIMIT)
  {
    NothingBeforeRateLimit(RATE_LIMIT[k]);
  }

  lemma GoneUnshadowed(k: nat)
    requires k < |GONE|
    ensures !MatchesAny(GONE[k], BEFORE_GONE)
  {
    assert Lean(GONE[k], 20, {'h', 'i', 'k'});
    NothingBeforeGone(GONE[k]);
  }

  lemma NoSubteamUnshadowed(k: nat)
    requires k < |NO_SUBTEAM|
    ensures !MatchesAny(NO_SUBTEAM[k], BEFORE_NO_SUBTEAM)
  {
    NothingBeforeNoSubteam(NO_SUBTEAM[k]);
  }

  lemma AlreadyMemberUnshadowed(k: nat)
    requires k < |ALREADY_MEMBER|
    ensures !MatchesAny(ALREADY_MEMBER[k], BEFORE_ALREADY_MEMBER)
  {
    MemberIsNotDeleted();
    NothingBeforeAlreadyMember(ALREADY_MEMBER[k]);
  }

  lemma MemberIsNotDeleted()
    ensures !Contains("user_already_team_member", "user_already_deleted")
  {
    assert "user_already_team_member"[19..] == "ember";
    EndsElsewhere("user_already_team_member", "user_already_deleted");
  }

  lemma ArgumentsUnshadowed()
    ensures !MatchesAny("invalid_arguments", BEFORE_ARGUMENT)
  {
    assert "invalid_arguments"[10..] == "guments";
    EndsElsewhere("invalid_arguments", "ratelimited");
    NothingBeforeArguments("invalid_arguments");
  }

  lemma CharsetUnshadowed()
    ensures !MatchesAny("invalid_charset", BEFORE_ARGUMENT)
  {
    assert "invalid_charset"[12..] == "set";
    EndsElsewhere("invalid_charset", "access_denied");
    NothingBeforeCharset("invalid_charset");
  }

  lemma ArrayOrFormUnshadowed()
    ensures !MatchesAny("invalid_array_arg", BEFORE_ARGUMENT) && !MatchesAny("invalid_form_data", BEFORE_ARGUMENT)
  {
    NothingBeforeArrayOrForm("invalid_array_arg");
    NothingBeforeArrayOrForm("invalid_form_data");
  }

  lemma InvalidPostTypeUnshadowed()
    ensures !MatchesAny("invalid_post_type", BEFORE_ARGUMENT)
  {
    NothingBeforePostType("invalid_post_type");
  }

  lemma MissingPostTypeUnshadowed()
    ensures !MatchesAny("missing_post_type", BEFORE_ARGUMENT)
  {
    NothingBeforePostType("missing_post_type");
  }

  lemma MissingArgumentUnshadowed()
    ensures !MatchesAny("missing_argument", BEFORE_ARGUMENT)
  {
    NothingBeforeMissing("missing_argument");
  }

  lemma ArgNameUnshadowed()
    ensures !MatchesAny("invalid_arg_name", BEFORE_ARGUMENT)
  {
    NothingBeforeArgName("invalid_arg_name");
  }

  lemma LimitRequiredUnshadowed()
    ensures !MatchesAny("limit_required", BEFORE_ARGUMENT)
  {
    NothingBeforeLimit("limit_required");
  }

  lemma ArgumentUnshadowed(k: nat)
    requires k < |ARGUMENT|
    ensures !MatchesAny(ARGUMENT[k], BEFORE_ARGUMENT)
  {
    ArgumentsUnshadowed();
    CharsetUnshadowed();
    ArrayOrFormUnshadowed();
    InvalidPostTypeUnshadowed();
    MissingPostTypeUnshadowed();
    MissingArgumentUnshadowed();
    ArgNameUnshadowed();
    LimitRequiredUnshadowed();
  }

  lemma TwoFactorUnshadowed(k: nat)
    requires k < |TWO_FACTOR|
    ensures !MatchesAny(TWO_FACTOR[k], BEFORE_TWO_FACTOR)
  {
    NothingBeforeTwoFactor(TWO_FACTOR[k]);
  }

  lemma ServerUnshadowed(k: nat)
    requires k < |SERVER|
    ensures !MatchesAny(SERVER[k], BEFORE_SERVER)
  {
    LeanUnavailable();
    LeanServer();
    match k
    case 1 => NothingBeforeUnavailable(SERVER[1]);
    case _ => NothingBeforeServer(SERVER[k]);
  }

  lemma LeanUnavailable()
    ensures Lean("service_unavailable", 19, {'d', 'g', 'o'})
  {
  }

  lemma LeanServer()
    ensures Lean("internal_error", 15, {'b', 'd', 'p'}) && Lean("request_timeout", 15, {'b', 'd', 'p'})
  {
  }

  lemma FatalUnshadowed(k: nat)
    requires k < |FATAL|
    ensures !MatchesAny(FATAL[k], BEFORE_FATAL)
  {
    NothingBeforeFatal(FATAL[k]);
  }

  lemma DeprecatedUnshadowed(k: nat)
    requires k < |DEPRECATED|
    ensures !MatchesAny(DEPRECATED[k], BEFORE_DEPRECATED)
  {
    NothingBeforeDeprecated(DEPRECATED[k]);
  }

  /** Every literal has the priority of its own group. */
  lemma NoLiteralShadowed(g: nat, k: nat)
    requires g < |GROUPS| && k < |GROUPS[g].literals|
    ensures Priority(GROUPS, GROUPS[g].literals[k]) == g
  {
    var literals := GROUPS[g].literals;
    MatchesSelf(literals[k], literals, k);
    Priorities(literals[k]);
    match g
    case 0 =>
    case 1 => PermissionUnshadowed(k);
    case 2 => RateLimitUnshadowed(k);
    case 3 => GoneUnshadowed(k);
    case 4 => NoSubteamUnshadowed(k);
    case 5 => AlreadyMemberUnshadowed(k);
    case 6 => ArgumentUnshadowed(k);
    case 7 => TwoFactorUnshadowed(k);
    case 8 => ServerUnshadowed(k);
    case 9 => FatalUnshadowed(k);
    case _ => DeprecatedUnshadowed(k);
  }

  // ----- The codes

  ghost predicate AllLowerCase(literals: seq<string>) {
    forall l :: l in literals ==> LowerCase(l)
  }

  lemma LowerCaseEarly()
    ensures AllLowerCase(AUTHENTICATION) && AllLowerCase(RATE_LIMIT)
  {
  }

  lemma LowerCasePermission()
    ensures AllLowerCase(PERMISSION)
  {
    var first := ["missing_scope", "access_denied", "not_allowed_token_type"];
    LowerCaseFirstPermissions();
    assert PERMISSION == first + ["team_access_not_granted", "no_permission", "ekm_access_denied"];
  }

  lemma LowerCaseFirstPermissions()
    ensures AllLowerCase(["missing_scope", "access_denied", "not_allowed_token_type"])
  {
  }

  lemma LowerCaseMiddle()
    ensures AllLowerCase(GONE) && AllLowerCase(NO_SUBTEAM) && AllLowerCase(ALREADY_MEMBER)
  {
  }

  lemma LowerCaseFirstArguments()
    ensures AllLowerCase(["invalid_arguments", "missing_argument", "invalid_arg_name"])
  {
  }

  lemma LowerCaseMiddleArguments()
    ensures AllLowerCase(["invalid_array_arg", "invalid_charset", "invalid_form_data"])
  {
  }

  lemma LowerCaseLastArguments()
    ensures AllLowerCase(["invalid_post_type", "missing_post_type", "limit_required"])
  {
  }

  lemma LowerCaseArgument()
    ensures AllLowerCase(ARGUMENT)
  {
    LowerCaseFirstArguments();
    LowerCaseMiddleArguments();
    LowerCaseLastArguments();
    assert ARGUMENT == ["invalid_arguments", "missing_argument", "invalid_arg_name"]
                       + ["invalid_array_arg", "invalid_charset", "invalid_form_data"]
                       + ["invalid_post_type", "missing_post_type", "limit_required"];
  }

  lemma LowerCaseServer()
    ensures AllLowerCase(SERVER)
  {
  }

  lemma LowerCaseLate()
    ensures AllLowerCase(TWO_FACTOR) && AllLowerCase(FATAL) && AllLowerCase(DEPRECATED)
  {
  }

  /** Every literal is classified with the code of the group that lists it. */
  lemma LiteralCodes(g: nat, k: nat)
    requires g < |GROUPS| && k < |GROUPS[g].literals|
    ensures Classify(GROUPS[g].literals[k]) == GROUPS[g].code
  {
    NoLiteralShadowed(g, k);
    LowerCaseEarly();
    LowerCasePermission();
    LowerCaseMiddle();
    LowerCaseArgument();
    LowerCaseServer();
    LowerCaseLate();
    assert AllLowerCase(GROUPS[g].literals);
    LowerFixed(GROUPS[g].literals[k]);
  }

  /** The strings that mean "already gone" and "already a member" get the codes the connector looks for. */
  lemma AlreadyDoneCodes()
    ensures Classify("user_not_found") == NotFound
    ensures Classify("user_already_deleted") == NotFound
    ensures Classify("no_such_subteam") == NotFound
    ensures Classify("user_already_team_member") == AlreadyExists
  {
    LiteralCodes(3, 0);
    LiteralCodes(3, 1);
    LiteralCodes(4, 0);
    LiteralCodes(5, 0);
  }
}
