/** Workspace membership provisioning, and how its idempotence depends on the error text: `Grant` and
    `Revoke` look for a code name in the text of the error they get. */
module Provisioning {
  import opened Resources
  import opened Text
  import opened SlackErrors
  import opened SlackErrorTable
  import opened WorkspaceRoles

  /** How a grant ends when its call fails with this error text, or does not fail. */
  function GrantOutcome(failure: Option<string>): Outcome {
    match failure
    case None => Done
    case Some(text) => if Contains(text, "AlreadyExists") then Outcome.AlreadyExists else Failed
  }

  method GrantWorkspace(api: SlackApi, principal: ResourceId, workspace: string) returns (outcome: Outcome)
    modifies api`calls
    ensures principal.resourceType != USER ==> outcome == Failed && api.calls == old(api.calls)
    ensures principal.resourceType == USER ==>
              && api.calls == old(api.calls) + [ApiCall(AddUser, workspace, principal.resource)]
              && outcome == GrantOutcome(api.failure)
    ensures outcome == Done <==> principal.resourceType == USER && api.failure.None?
  {
    if principal.resourceType != USER {
      return Failed;
    }
    var error := api.Post(AddUser, workspace, principal.resource);
    if error.Some? {
      if Contains(error.value, "AlreadyExists") {
        return Outcome.AlreadyExists;
      }
      return Failed;
    }
    outcome := Done;
  }

  method RevokeWorkspace(api: SlackApi, principal: ResourceId, workspace: string) returns (outcome: Outcome)
    modifies api`calls
    ensures principal.resourceType != USER ==> outcome == Failed && api.calls == old(api.calls)
    ensures principal.resourceType == USER ==>
              && api.calls == old(api.calls) + [ApiCall(RemoveUser, workspace, principal.resource)]
              && outcome == RevokeOutcome(api.failure)
    ensures outcome == Done <==> principal.resourceType == USER && api.failure.None?
  {
    if principal.resourceType != USER {
      return Failed;
    }
    var error := api.Post(RemoveUser, workspace, principal.resource);
    if error.Some? {
      if Contains(error.value, "NotFound") {
        return AlreadyRevoked;
      }
      return Failed;
    }
    outcome := Done;
  }

  /** The text of an error with a code, wrapped around a Slack error: the status line with the code's
      name, then the wrapped error on a line of its own. */
  function ErrorText(code: Code, slackError: string): string {
    "rpc error: code = " + code.Name() + " desc = Slack API error: " + slackError + "\n" + "slack error: " + slackError
  }

  /** The error text of an `ok: false` response. */
  function ResponseErrorText(slackError: string): string {
    ErrorText(Classify(slackError), slackError)
  }

  /** The same text, cut at a space or line end between its pieces. */
  lemma CutText(name: string, slackError: string)
    ensures var last := "slack error:" + [' '] + slackError;
            var body := slackError + ['\n'] + last;
            var desc := "desc = Slack API error:" + [' '] + body;
            "rpc error: code =" + [' '] + (name + [' '] + desc)
            == "rpc error: code = " + name + " desc = Slack API error: " + slackError + "\n" + "slack error: " + slackError
  {
    assert "rpc error: code = " == "rpc error: code =" + [' '];
    assert " desc = Slack API error: " == [' '] + "desc = Slack API error:" + [' '];
    assert "slack error: " == "slack error:" + [' '];
  }

  /** A word that is not in the fixed piece before a space is not made by putting it there. */
  lemma AfterPiece(piece: string, rest: string, word: string, mark: char)
    requires ' ' !in word && mark in word && mark !in piece
    ensures Contains(piece + [' '] + rest, word) <==> Contains(rest, word)
  {
    ContainsAcrossWall(piece, ' ', rest, word);
    Excludes(piece, word, mark);
  }

  /** Text made of pieces around spaces and a line end contains a word without either exactly when a
      piece does. */
  lemma ContainsInPieces(name: string, slackError: string, word: string, mark: char)
    requires ' ' !in word && '\n' !in word && mark in word
    requires mark !in "rpc error: code =" && mark !in "desc = Slack API error:" && mark !in "slack error:"
    ensures var text := "rpc error: code = " + name + " desc = Slack API error: " + slackError
                        + "\n" + "slack error: " + slackError;
            Contains(text, word) <==> Contains(name, word) || Contains(slackError, word)
  {
    var last := "slack error:" + [' '] + slackError;
    var body := slackError + ['\n'] + last;
    var desc := "desc = Slack API error:" + [' '] + body;
    AfterPiece("slack error:", slackError, word, mark);
    ContainsAcrossWall(slackError, '\n', last, word);
    AfterPiece("desc = Slack API error:", body, word, mark);
    ContainsAcrossWall(name, ' ', desc, word);
    AfterPiece("rpc error: code =", name + [' '] + desc, word, mark);
    CutText(name, slackError);
  }

  lemma NameHasNotFound(code: Code)
    ensures Contains(code.Name(), "NotFound") <==> code == NotFound
  {
    if code == NotFound {
      assert MatchesAt("NotFound", "NotFound", 0);
    } else {
      assert 'N' !in code.Name();
      assert "NotFound"[0] == 'N';
      Excludes(code.Name(), "NotFound", 'N');
    }
  }

  lemma NameHasAlreadyExists(code: Code)
    ensures Contains(code.Name(), "AlreadyExists") <==> code == Code.AlreadyExists
  {
    if code == Code.AlreadyExists {
      assert MatchesAt("AlreadyExists", "AlreadyExists", 0);
    } else {
      assert 'x' !in code.Name();
      assert "AlreadyExists"[8] == 'x';
      Excludes(code.Name(), "AlreadyExists", 'x');
    }
  }

  /** The text tests read the code back, up to Slack errors that spell a code name themselves. */
  lemma TextNamesNotFound(code: Code, slackError: string)
    ensures Contains(ErrorText(code, slackError), "NotFound") <==>
            code == NotFound || Contains(slackError, "NotFound")
  {
    assert "NotFound"[0] == 'N';
    ContainsInPieces(code.Name(), slackError, "NotFound", 'N');
    NameHasNotFound(code);
  }

  lemma TextNamesAlreadyExists(code: Code, slackError: string)
    ensures Contains(ErrorText(code, slackError), "AlreadyExists") <==>
            code == Code.AlreadyExists || Contains(slackError, "AlreadyExists")
  {
    assert "AlreadyExists"[8] == 'x';
    ContainsInPieces(code.Name(), slackError, "AlreadyExists", 'x');
    NameHasAlreadyExists(code);
  }

  /** For Slack's own error codes, which are lower case, a revoke counts as already revoked exactly when
      the error is classified `NotFound`, and a grant as already existing exactly when it is classified
      `AlreadyExists`. */
  lemma LowerCaseTextNamesCode(slackError: string)
    requires ToLower(slackError) == slackError
    ensures Contains(ResponseErrorText(slackError), "NotFound") <==> Classify(slackError) == NotFound
    ensures Contains(ResponseErrorText(slackError), "AlreadyExists") <==> Classify(slackError) == Code.AlreadyExists
  {
    TextNamesNotFound(Classify(slackError), slackError);
    TextNamesAlreadyExists(Classify(slackError), slackError);
    NoCapitals(slackError);
    assert "NotFound"[0] == 'N' && "AlreadyExists"[0] == 'A';
    Excludes(slackError, "NotFound", 'N');
    Excludes(slackError, "AlreadyExists", 'A');
  }

  lemma NoCapitals(s: string)
    requires ToLower(s) == s
    ensures 'N' !in s && 'A' !in s
  {
  }

  /** Whether a Slack error has a literal that is classified before the gone-user ones. */
  ghost predicate DeniedOrLimited(slackError: string) {
    var s := ToLower(slackError);
    MatchesAny(s, AUTHENTICATION) || MatchesAny(s, PERMISSION) || MatchesAny(s, RATE_LIMIT)
  }

  ghost predicate Gone(slackError: string) {
    var s := ToLower(slackError);
    MatchesAny(s, GONE) || MatchesAny(s, NO_SUBTEAM)
  }

  /** Revoking a workspace membership counts as already revoked, over all Slack errors, exactly when the
      error says that the user is gone (or a group is disabled) and has no authentication, permission or
      rate-limit literal, or spells `NotFound` itself. After any other error it fails. */
  lemma RevokeOfGoneUser(slackError: string)
    ensures RevokeOutcome(Some(ResponseErrorText(slackError))) == AlreadyRevoked <==>
            (Gone(slackError) && !DeniedOrLimited(slackError)) || Contains(slackError, "NotFound")
    ensures RevokeOutcome(Some(ResponseErrorText(slackError))) == Failed <==>
            !(Gone(slackError) && !DeniedOrLimited(slackError)) && !Contains(slackError, "NotFound")
  {
    TextNamesNotFound(Classify(slackError), slackError);
    Cascade(ToLower(slackError));
  }

  /** Granting one counts as already existing exactly when the error says that the user is a member, and
      nothing that is classified earlier, or spells `AlreadyExists` itself. After any other error it
      fails. */
  lemma GrantToMember(slackError: string)
    ensures GrantOutcome(Some(ResponseErrorText(slackError))) == Outcome.AlreadyExists <==>
            || (MatchesAny(ToLower(slackError), ALREADY_MEMBER) && !DeniedOrLimited(slackError) && !Gone(slackError))
            || Contains(slackError, "AlreadyExists")
    ensures GrantOutcome(Some(ResponseErrorText(slackError))) == Failed <==>
            && !(MatchesAny(ToLower(slackError), ALREADY_MEMBER) && !DeniedOrLimited(slackError) && !Gone(slackError))
            && !Contains(slackError, "AlreadyExists")
  {
    TextNamesAlreadyExists(Classify(slackError), slackError);
    Cascade(ToLower(slackError));
  }

  /** So revoking from a user who is already gone, and adding a user who is already a member, succeed. */
  lemma AlreadyDoneSucceeds()
    ensures RevokeOutcome(Some(ResponseErrorText("user_not_found"))) == AlreadyRevoked
    ensures RevokeOutcome(Some(ResponseErrorText("user_already_deleted"))) == AlreadyRevoked
    ensures GrantOutcome(Some(ResponseErrorText("user_already_team_member"))) == Outcome.AlreadyExists
  {
    AlreadyDoneCodes();
    TextNamesNotFound(NotFound, "user_not_found");
    TextNamesNotFound(NotFound, "user_already_deleted");
    TextNamesAlreadyExists(Code.AlreadyExists, "user_already_team_member");
  }
}
