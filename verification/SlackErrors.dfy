/** Classifying Slack's error strings, and what the connector later reads back out of the error text. */
module SlackErrors {
  import opened Text

  datatype Code =
    Unauthenticated | PermissionDenied | Unavailable | NotFound | AlreadyExists | InvalidArgument |
    FailedPrecondition | Internal | Unimplemented | Unknown
  {
    function Name(): string {
      match this
      case Unauthenticated => "Unauthenticated"
      case PermissionDenied => "PermissionDenied"
      case Unavailable => "Unavailable"
      case NotFound => "NotFound"
      case AlreadyExists => "AlreadyExists"
      case InvalidArgument => "InvalidArgument"
      case FailedPrecondition => "FailedPrecondition"
      case Internal => "Internal"
      case Unimplemented => "Unimplemented"
      case Unknown => "Unknown"
    }
  }

  // ----- First match in an ordered table

  datatype Group = Group(literals: seq<string>, code: Code)

  predicate MatchesAny(s: string, literals: seq<string>) {
    exists k :: 0 <= k < |literals| && Contains(s, literals[k])
  }

  /** The index of the earliest group with a literal in `s`, or the number of groups. */
  function Priority(groups: seq<Group>, s: string): (p: nat)
    ensures p <= |groups|
    ensures p < |groups| ==> MatchesAny(s, groups[p].literals)
    ensures forall k :: 0 <= k < p ==> !MatchesAny(s, groups[k].literals)
  {
    if groups == [] || MatchesAny(s, groups[0].literals) then 0 else 1 + Priority(groups[1..], s)
  }

  function CodeAt(groups: seq<Group>, p: nat): Code
    requires p <= |groups|
  {
    if p < |groups| then groups[p].code else Unknown
  }

  lemma MatchesInContext(before: string, s: string, after: string, literals: seq<string>)
    requires MatchesAny(s, literals)
    ensures MatchesAny(before + s + after, literals)
  {
    var k :| 0 <= k < |literals| && Contains(s, literals[k]);
    ContainsInContext(before, s, after, literals[k]);
  }

  /** Surrounding text can only raise the priority. */
  lemma ContextRaisesPriority(groups: seq<Group>, before: string, s: string, after: string)
    ensures Priority(groups, before + s + after) <= Priority(groups, s)
  {
    var p := Priority(groups, s);
    if p < |groups| {
      MatchesInContext(before, s, after, groups[p].literals);
    }
  }

  // ----- The connector's table

  const SLACK_ERR_NO_SUCH_SUBTEAM := "no_such_subteam"

  const AUTHENTICATION := ["invalid_auth", "token_revoked", "token_expired", "not_authed", "account_inactive"]
  const PERMISSION := ["missing_scope", "access_denied", "not_allowed_token_type", "team_access_not_granted",
                       "no_permission", "ekm_access_denied"]
  const RATE_LIMIT := ["ratelimited"]
  const GONE := ["user_not_found", "user_already_deleted"]
  const NO_SUBTEAM := [SLACK_ERR_NO_SUCH_SUBTEAM]
  const ALREADY_MEMBER := ["user_already_team_member"]
  const ARGUMENT := ["invalid_arguments", "missing_argument", "invalid_arg_name", "invalid_array_arg",
                     "invalid_charset", "invalid_form_data", "invalid_post_type", "missing_post_type", "limit_required"]
  const TWO_FACTOR := ["two_factor_setup_required"]
  const SERVER := ["internal_error", "service_unavailable", "request_timeout"]
  const FATAL := ["fatal_error"]
  const DEPRECATED := ["method_deprecated", "deprecated_endpoint"]

  const GROUPS := [
    Group(AUTHENTICATION, Unauthenticated),
    Group(PERMISSION, PermissionDenied),
    Group(RATE_LIMIT, Unavailable),
    Group(GONE, NotFound),
    Group(NO_SUBTEAM, NotFound),
    Group(ALREADY_MEMBER, AlreadyExists),
    Group(ARGUMENT, InvalidArgument),
    Group(TWO_FACTOR, FailedPrecondition),
    Group(SERVER, Unavailable),
    Group(FATAL, Internal),
    Group(DEPRECATED, Unimplemented)
  ]

  /** Lower case as far as ASCII letters can come out of it: the capital letters, the Kelvin sign and the
      dotted capital I. */
  function LowerChar(c: char): char {
    if 'A' <= c <= 'Z' then c - 'A' + 'a'
    else if c == '\U{212A}' then 'k'
    else if c == '\U{130}' then 'i'
    else c
  }

  function ToLower(s: string): (t: string)
    ensures |t| == |s| && forall k :: 0 <= k < |s| ==> t[k] == LowerChar(s[k])
  {
    seq(|s|, k requires 0 <= k < |s| => LowerChar(s[k]))
  }

  function Classify(slackError: string): Code {
    CodeAt(GROUPS, Priority(GROUPS, ToLower(slackError)))
  }

  method ContainsAny(s: string, substrs: seq<string>) returns (found: bool)
    ensures found <==> MatchesAny(s, substrs)
  {
    for k := 0 to |substrs|
      invariant forall i :: 0 <= i < k ==> !Contains(s, substrs[i])
    {
      if Contains(s, substrs[k]) {
        return true;
      }
    }
    return false;
  }

  /** First match in the connector's table, group by group. */
  lemma Cascade(s: string)
    ensures Priority(GROUPS, s) ==
            if MatchesAny(s, AUTHENTICATION) then 0
            else if MatchesAny(s, PERMISSION) then 1
            else if MatchesAny(s, RATE_LIMIT) then 2
            else if MatchesAny(s, GONE) then 3
            else if MatchesAny(s, NO_SUBTEAM) then 4
            else if MatchesAny(s, ALREADY_MEMBER) then 5
            else if MatchesAny(s, ARGUMENT) then 6
            else if MatchesAny(s, TWO_FACTOR) then 7
            else if MatchesAny(s, SERVER) then 8
            else if MatchesAny(s, FATAL) then 9
            else if MatchesAny(s, DEPRECATED) then 10
            else 11
  {
    var p := Priority(GROUPS, s);
    assert GROUPS[0].literals == AUTHENTICATION && GROUPS[1].literals == PERMISSION
           && GROUPS[2].literals == RATE_LIMIT && GROUPS[3].literals == GONE
           && GROUPS[4].literals == NO_SUBTEAM && GROUPS[5].literals == ALREADY_MEMBER
           && GROUPS[6].literals == ARGUMENT && GROUPS[7].literals == TWO_FACTOR
           && GROUPS[8].literals == SERVER && GROUPS[9].literals == FATAL
           && GROUPS[10].literals == DEPRECATED;
  }

  /** The cascade finds the earliest group with a literal in the lower-cased string. */
  method MapSlackErrorToGRPCCode(slackError: string) returns (code: Code)
    ensures code == Classify(slackError)
  {
    var err := ToLower(slackError);
    Cascade(err);
    var m := ContainsAny(err, AUTHENTICATION);
    if m {
      return Unauthenticated;
    }
    m := ContainsAny(err, PERMISSION);
    if m {
      return PermissionDenied;
    }
    m := ContainsAny(err, RATE_LIMIT);
    if m {
      return Unavailable;
    }
    m := ContainsAny(err, GONE);
    if m {
      return NotFound;
    }
    m := ContainsAny(err, NO_SUBTEAM);
    if m {
      return NotFound;
    }
    m := ContainsAny(err, ALREADY_MEMBER);
    if m {
      return AlreadyExists;
    }
    m := ContainsAny(err, ARGUMENT);
    if m {
      return InvalidArgument;
    }
    m := ContainsAny(err, TWO_FACTOR);
    if m {
      return FailedPrecondition;
    }
    m := ContainsAny(err, SERVER);
    if m {
      return Unavailable;
    }
    m := ContainsAny(err, FATAL);
    if m {
      return Internal;
    }
    m := ContainsAny(err, DEPRECATED);
    if m {
      return Unimplemented;
    }
    return Unknown;
  }

  /** The classifier spelled out: which literals give which code, and in what order they are looked for. */
  lemma ClassifiedAs(slackError: string)
    ensures var s := ToLower(slackError);
            Classify(slackError) ==
            if MatchesAny(s, ["invalid_auth", "token_revoked", "token_expired", "not_authed", "account_inactive"])
            then Unauthenticated
            else if MatchesAny(s, ["missing_scope", "access_denied", "not_allowed_token_type", "team_access_not_granted",
                                   "no_permission", "ekm_access_denied"])
            then PermissionDenied
            else if MatchesAny(s, ["ratelimited"]) then Unavailable
            else if MatchesAny(s, ["user_not_found", "user_already_deleted"]) then NotFound
            else if MatchesAny(s, ["no_such_subteam"]) then NotFound
            else if MatchesAny(s, ["user_already_team_member"]) then AlreadyExists
            else if MatchesAny(s, ["invalid_arguments", "missing_argument", "invalid_arg_name", "invalid_array_arg",
                                   "invalid_charset", "invalid_form_data", "invalid_post_type", "missing_post_type",
                                   "limit_required"])
            then InvalidArgument
            else if MatchesAny(s, ["two_factor_setup_required"]) then FailedPrecondition
            else if MatchesAny(s, ["internal_error", "service_unavailable", "request_timeout"]) then Unavailable
            else if MatchesAny(s, ["fatal_error"]) then Internal
            else if MatchesAny(s, ["method_deprecated", "deprecated_endpoint"]) then Unimplemented
            else Unknown
  {
    Cascade(ToLower(slackError));
  }

  // ----- What is inside a text

  /** A string without the letter `c` contains no text with it. */
  lemma Excludes(s: string, p: string, c: char)
    requires c in p && c !in s
    ensures !Contains(s, p)
  {
  }

  lemma MatchesSelf(s: string, literals: seq<string>, k: nat)
    requires k < |literals| && literals[k] == s
    ensures MatchesAny(s, literals)
  {
    assert MatchesAt(s, s, 0);
  }

  predicate LowerCase(s: string) {
    forall c :: c in s ==> 'a' <= c <= 'z' || c == '_'
  }

  /** Lower-case text is left alone. */
  lemma LowerFixed(s: string)
    requires LowerCase(s)
    ensures ToLower(s) == s
  {
    forall k | 0 <= k < |s| ensures LowerChar(s[k]) == s[k] {
      assert s[k] in s;
    }
  }

  lemma LowerAppend(a: string, b: string)
    ensures ToLower(a + b) == ToLower(a) + ToLower(b)
  {
  }

  lemma GoneUnlessEarlier(s: string)
    requires MatchesAny(s, GONE)
    ensures CodeAt(GROUPS, Priority(GROUPS, s)) == NotFound <==>
            !MatchesAny(s, AUTHENTICATION) && !MatchesAny(s, PERMISSION) && !MatchesAny(s, RATE_LIMIT)
  {
    Cascade(s);
  }

  /** Text around a gone-user error never makes it a lesser one: the code stays `NotFound` unless an
      authentication, permission or rate-limit literal comes with it. */
  lemma GoneInContext(before: string, gone: string, after: string)
    requires ToLower(gone) == gone && MatchesAny(gone, GONE)
    ensures var s := ToLower(before + gone + after);
            Classify(before + gone + after) == NotFound <==>
            !MatchesAny(s, AUTHENTICATION) && !MatchesAny(s, PERMISSION) && !MatchesAny(s, RATE_LIMIT)
  {
    LowerAppend(before + gone, after);
    LowerAppend(before, gone);
    MatchesInContext(ToLower(before), gone, ToLower(after), GONE);
    GoneUnlessEarlier(ToLower(before + gone + after));
  }

  predicate CapitalOf(capital: char, small: char) {
    'A' <= capital <= 'Z' && small == capital - 'A' + 'a'
  }

  /** Case does not matter. */
  lemma CaseBlind(s: string, t: string)
    requires |s| == |t|
    requires forall k :: 0 <= k < |s| ==> s[k] == t[k] || CapitalOf(s[k], t[k]) || CapitalOf(t[k], s[k])
    ensures Classify(s) == Classify(t)
  {
    assert ToLower(s) == ToLower(t);
  }
}
