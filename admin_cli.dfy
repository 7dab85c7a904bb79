/**
 * The administrator's command-line tool (backend/admin_approve.py), which
 * approves or denies access requests directly on the database.
 *
 * `approve` and `deny` print one message and return; the outcome here says
 * which message is printed. `argv` is the whole `sys.argv`, script name
 * first.
 */
module AdminCli {
  import opened Wrappers
  import opened AccessStore

  /** What a run of the tool did. */
  datatype RunOutcome =
    | ShowUsage
    | RanApprove(approve: ApproveReply)
    | RanDeny(deny: DenyReply)
    | UnknownCommand(name: string)

  /**
   * `approve(username, role)`: nothing without a request; only marks the
   * request approved when an approved user already has the username or the
   * request's email; otherwise adds that user with the given role and marks
   * the request approved.
   */
  method Approve(db: Database, username: string, role: string) returns (outcome: ApproveReply)
    modifies db`approvedUsers, db`accessRequests
    ensures outcome == ApproveNotFound <==> RequestIndex(old(db.accessRequests), username).None?
    ensures outcome == ApproveNotFound ==>
      db.approvedUsers == old(db.approvedUsers) && db.accessRequests == old(db.accessRequests)
    ensures outcome != ApproveNotFound ==>
      var k := RequestIndex(old(db.accessRequests), username).value;
      var req := old(db.accessRequests)[k];
      && (outcome == MarkedApproved <==>
           exists u :: u in old(db.approvedUsers) && (u.username == username || u.email == req.email))
      && db.accessRequests == old(db.accessRequests)[k := req.(status := "approved")]
      && (outcome == MarkedApproved ==> db.approvedUsers == old(db.approvedUsers))
      && (outcome == UserCreated ==> db.approvedUsers == old(db.approvedUsers) + [UserFrom(req, role)])
    ensures old(UsersDistinct(db.approvedUsers)) ==> UsersDistinct(db.approvedUsers)
  {
    var request := RequestIndex(db.accessRequests, username);
    if request.None? {
      return ApproveNotFound;
    }
    var k := request.value;
    var req := db.accessRequests[k];
    var existing := FirstIndex(db.approvedUsers, UserNamedOrMailed(username, req.email));
    if existing.Some? {
      assert db.approvedUsers[existing.value] in db.approvedUsers;
      db.accessRequests := db.accessRequests[k := req.(status := Approved)];
      return MarkedApproved;
    }
    db.approvedUsers := db.approvedUsers + [UserFrom(req, role)];
    db.accessRequests := db.accessRequests[k := req.(status := Approved)];
    outcome := UserCreated;
  }

  /**
   * `deny(username, reason)`: nothing without a request; otherwise the status
   * becomes `'denied'` and the reason is stored only when one is given and
   * non-empty.
   */
  method Deny(db: Database, username: string, reason: Option<string>) returns (outcome: DenyReply)
    modifies db`accessRequests
    ensures outcome == DenyNotFound <==> RequestIndex(old(db.accessRequests), username).None?
    ensures outcome == DenyNotFound ==> db.accessRequests == old(db.accessRequests)
    ensures outcome == DeniedRequest ==>
      var k := RequestIndex(old(db.accessRequests), username).value;
      db.accessRequests == old(db.accessRequests)[k := DeniedWith(old(db.accessRequests)[k], reason.GetOr(""))]
  {
    var request := RequestIndex(db.accessRequests, username);
    if request.None? {
      return DenyNotFound;
    }
    var k := request.value;
    db.accessRequests := db.accessRequests[k := DeniedWith(db.accessRequests[k], reason.GetOr(""))];
    outcome := DeniedRequest;
  }

  /**
   * The value the flag loop leaves for `flag` after scanning positions 3 up to
   * `n - 1`: the word after the last occurrence of `flag` that has a word
   * after it, or nothing.
   */
  function FlagValue(argv: seq<string>, flag: string, n: nat): Option<string>
    requires n <= |argv|
    decreases n
  {
    if n <= 3 then None
    else if argv[n - 1] == flag && n < |argv| then Some(argv[n])
    else FlagValue(argv, flag, n - 1)
  }

  /** Position `i` is a flag occurrence the loop acts on: at position 3 or later, with a word after it. */
  predicate SetsFlag(argv: seq<string>, flag: string, i: int) {
    3 <= i < |argv| - 1 && argv[i] == flag
  }

  /**
   * `FlagValue` is the word after the last acting occurrence of the flag, and
   * nothing exactly when there is no acting occurrence.
   */
  lemma {:induction false} FlagValueIsLast(argv: seq<string>, flag: string, n: nat)
    requires n <= |argv|
    ensures FlagValue(argv, flag, n).None? <==> forall i :: 0 <= i < n ==> !SetsFlag(argv, flag, i)
    ensures FlagValue(argv, flag, n).Some? ==>
      exists i :: 0 <= i < n && SetsFlag(argv, flag, i) && FlagValue(argv, flag, n).value == argv[i + 1] &&
        forall j :: i < j < n ==> !SetsFlag(argv, flag, j)
    decreases n
  {
    if n > 3 {
      if argv[n - 1] == flag && n < |argv| {
        assert SetsFlag(argv, flag, n - 1);
        assert FlagValue(argv, flag, n).value == argv[n];
      } else {
        FlagValueIsLast(argv, flag, n - 1);
        assert !SetsFlag(argv, flag, n - 1);
        if FlagValue(argv, flag, n - 1).Some? {
          var i :| 0 <= i < n - 1 && SetsFlag(argv, flag, i) && FlagValue(argv, flag, n - 1).value == argv[i + 1] &&
            forall j :: i < j < n - 1 ==> !SetsFlag(argv, flag, j);
          assert forall j :: i < j < n ==> !SetsFlag(argv, flag, j);
        }
      }
    } else {
      assert forall i :: 0 <= i < n ==> !SetsFlag(argv, flag, i);
    }
  }

  /** A flag in the final position, with no word after it, changes nothing. */
  lemma {:induction false} TrailingFlagIgnored(argv: seq<string>, flag: string)
    requires |argv| >= 3
    requires |argv| > 3 ==> argv[|argv| - 1] != flag
    ensures FlagValue(argv + [flag], flag, |argv| + 1) == FlagValue(argv, flag, |argv|)
  {
    var longer := argv + [flag];
    assert FlagValue(longer, flag, |argv| + 1) == FlagValue(longer, flag, |argv|);
    FlagValuePrefix(argv, longer, flag, |argv|);
  }

  /** Below the last position of `argv`, appending words does not change the scan. */
  lemma {:induction false} FlagValuePrefix(argv: seq<string>, longer: seq<string>, flag: string, n: nat)
    requires n <= |argv| <= |longer| && argv == longer[..|argv|]
    requires n == |argv| && n > 3 ==> argv[n - 1] != flag
    ensures FlagValue(longer, flag, n) == FlagValue(argv, flag, n)
    decreases n
  {
    if n > 3 {
      FlagValuePrefix(argv, longer, flag, n - 1);
    }
  }

  /**
   * The `--role`/`--reason` loop: every position from 3 on is looked at, and
   * a flag with a word after it sets its variable to that word. The role
   * starts as `'user'` and the reason as nothing.
   */
  method ParseFlags(argv: seq<string>) returns (role: string, reason: Option<string>)
    ensures role == FlagValue(argv, "--role", |argv|).GetOr("user")
    ensures reason == FlagValue(argv, "--reason", |argv|)
  {
    role := "user";
    reason := None;
    var i := 3;
    if |argv| < 3 {
      return;
    }
    while i < |argv|
      invariant 3 <= i <= |argv|
      invariant role == FlagValue(argv, "--role", i).GetOr("user")
      invariant reason == FlagValue(argv, "--reason", i)
    {
      if argv[i] == "--role" && i + 1 < |argv| {
        role := argv[i + 1];
      }
      if argv[i] == "--reason" && i + 1 < |argv| {
        reason := Some(argv[i + 1]);
      }
      i := i + 1;
    }
  }

  /**
   * The script's main block: fewer than three words prints the usage; the
   * command `approve` or `deny` runs on the username with the parsed flags;
   * any other command changes nothing.
   */
  method Run(db: Database, argv: seq<string>) returns (outcome: RunOutcome)
    modifies db`approvedUsers, db`accessRequests
    ensures |argv| < 3 <==> outcome == ShowUsage
    ensures outcome.RanApprove? <==> |argv| >= 3 && argv[1] == "approve"
    ensures outcome.RanDeny? <==> |argv| >= 3 && argv[1] == "deny"
    ensures |argv| >= 3 && argv[1] != "approve" && argv[1] != "deny" ==> outcome == UnknownCommand(argv[1])
    ensures outcome.ShowUsage? || outcome.UnknownCommand? ==>
      db.approvedUsers == old(db.approvedUsers) && db.accessRequests == old(db.accessRequests)
    // `approve` acts on the username `argv[2]` with the parsed role.
    ensures outcome.RanApprove? ==>
      && (outcome.approve == ApproveNotFound <==> RequestIndex(old(db.accessRequests), argv[2]).None?)
      && (outcome.approve == ApproveNotFound ==>
           db.approvedUsers == old(db.approvedUsers) && db.accessRequests == old(db.accessRequests))
    ensures outcome.RanApprove? && outcome.approve != ApproveNotFound ==>
      var k := RequestIndex(old(db.accessRequests), argv[2]).value;
      var req := old(db.accessRequests)[k];
      && (outcome.approve == MarkedApproved <==>
           exists u :: u in old(db.approvedUsers) && (u.username == argv[2] || u.email == req.email))
      && db.accessRequests == old(db.accessRequests)[k := req.(status := "approved")]
      && (outcome.approve == MarkedApproved ==> db.approvedUsers == old(db.approvedUsers))
      && (outcome.approve == UserCreated ==>
           db.approvedUsers == old(db.approvedUsers) + [UserFrom(req, FlagValue(argv, "--role", |argv|).GetOr("user"))])
    // `deny` acts on the username `argv[2]` with the parsed reason, and never touches approved users.
    ensures outcome.RanDeny? ==>
      && db.approvedUsers == old(db.approvedUsers)
      && (outcome.deny == DenyNotFound <==> RequestIndex(old(db.accessRequests), argv[2]).None?)
      && (outcome.deny == DenyNotFound ==> db.accessRequests == old(db.accessRequests))
    ensures outcome.RanDeny? && outcome.deny == DeniedRequest ==>
      var k := RequestIndex(old(db.accessRequests), argv[2]).value;
      db.accessRequests ==
        old(db.accessRequests)[k := DeniedWith(old(db.accessRequests)[k], FlagValue(argv, "--reason", |argv|).GetOr(""))]
  {
    if |argv| < 3 {
      return ShowUsage;
    }
    var command := argv[1];
    var username := argv[2];
    var role, reason := ParseFlags(argv);
    if command == "approve" {
      var r := Approve(db, username, role);
      outcome := RanApprove(r);
    } else if command == "deny" {
      var r := Deny(db, username, reason);
      outcome := RanDeny(r);
    } else {
      outcome := UnknownCommand(command);
    }
  }
}
