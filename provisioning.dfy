/** Operator provisioning (`POST /create-operator`): validate the request, make one
    identity-provider `createUser` attempt raced against a 15 s timer, write the
    operator's profile to `users/{uid}`, and delete the new account again when the
    profile write fails. */
module Provisioning {
  import opened Base
  import opened Js
  import opened Seqs

  /** How the raced `createUser` call settles. */
  datatype CreateOutcome =
    | Created(uid: string)                 // the account was created within 15 s
    | Rejected(message: string)            // the identity provider refused
    | TimedOut(lateUid: Option<string>)    // the timer won; the call may still create an account later

  /** The outcome of each external call the handler can make. */
  datatype Environment = Environment(
    create: CreateOutcome,
    profileWrite: Option<string>,   // None: the write succeeded; Some(m): it failed with message m
    rollbackSucceeds: bool)

  /** The profile document written for a new operator. */
  datatype Profile = Profile(
    email: Json, role: string, active: bool, cameras: seq<Json>,
    createdAtMs: int, createdBy: string)

  /** An external call issued by the handler. */
  datatype Call =
    | CreateUser(email: Json, password: Json)
    | SetProfile(uid: string, profile: Profile)
    | DeleteUser(uid: string)

  datatype Response = Response(status: int, success: bool, uid: Option<string>, message: string)

  const TimeoutMessage := "Firebase Auth timeout"
  const SlowMessage := "Firebase is taking too long. Try again."
  const FallbackMessage := "Failed to create operator"
  const ValidationMessage := "Email, password and at least one camera are required"

  /** The request passes validation: a truthy email and password and a non-empty
      array of cameras. */
  predicate ValidRequest(body: Doc) {
    TruthyOpt(Get(body, "email")) && TruthyOpt(Get(body, "password"))
    && Get(body, "cameras").Some? && Get(body, "cameras").value.JArr?
    && |Get(body, "cameras").value.items| > 0
  }

  /** The message of the error that ends the `try` block. */
  function FailureMessage(env: Environment): string {
    match env.create
    case Rejected(m) => m
    case TimedOut(_) => TimeoutMessage
    case Created(_) => env.profileWrite.GetOr("")
  }

  /** The 500 response text for an error message. */
  function ErrorText(m: string): (r: string)
    ensures Contains(m, "timeout") ==> r == SlowMessage
    ensures !Contains(m, "timeout") && m != "" ==> r == m
    ensures !Contains(m, "timeout") && m == "" ==> r == FallbackMessage
  {
    if Contains(m, "timeout") then SlowMessage
    else if m != "" then m
    else FallbackMessage
  }

  function NewProfile(body: Doc, callerUid: string, now: int): Profile
    requires ValidRequest(body)
  {
    Profile(Get(body, "email").value, "operator", true, Get(body, "cameras").value.items, now, callerUid)
  }

  /** The calls the handler issues, in order. */
  function Calls(body: Doc, callerUid: string, env: Environment, now: int): (r: seq<Call>)
    ensures !ValidRequest(body) ==> r == []
    ensures ValidRequest(body) ==> 1 <= |r| <= 3 && r[0].CreateUser?
    ensures forall k :: 0 < k < |r| ==> !r[k].CreateUser?
    ensures (exists k :: 0 <= k < |r| && r[k].DeleteUser?) ==> env.create.Created? && env.profileWrite.Some?
  {
    if !ValidRequest(body) then []
    else
      var create := [CreateUser(Get(body, "email").value, Get(body, "password").value)];
      match env.create
      case Created(uid) =>
        create + [SetProfile(uid, NewProfile(body, callerUid, now))]
        + (if env.profileWrite.Some? && uid != "" then [DeleteUser(uid)] else [])
      case _ => create
  }

  /** The response the handler sends. */
  function Respond(body: Doc, env: Environment): (r: Response)
    ensures r.status in {201, 400, 500}
    ensures r.status == 400 <==> !ValidRequest(body)
    ensures r.status == 201 <==> ValidRequest(body) && env.create.Created? && env.profileWrite.None?
    ensures r.status == 201 ==> r.uid == Some(env.create.uid)
  {
    if !ValidRequest(body) then Response(400, false, None, ValidationMessage)
    else if env.create.Created? && env.profileWrite.None? then
      Response(201, true, Some(env.create.uid), "Operator created successfully")
    else Response(500, false, None, ErrorText(FailureMessage(env)))
  }

  /** The identity provider's accounts after the request: a new account from a
      create that went through (even one that settles after the timer), minus the
      rolled-back one. */
  function AccountsAfter(accounts: map<string, Json>, body: Doc, env: Environment): map<string, Json> {
    if !ValidRequest(body) then accounts
    else
      var email := Get(body, "email").value;
      match env.create
      case Rejected(_) => accounts
      case TimedOut(late) => if late.Some? then accounts[late.value := email] else accounts
      case Created(uid) =>
        if env.profileWrite.Some? && uid != "" && env.rollbackSucceeds
        then accounts - {uid}
        else accounts[uid := email]
  }

  function ProfilesAfter(users: map<string, Profile>, body: Doc, callerUid: string, env: Environment, now: int)
    : map<string, Profile>
  {
    if ValidRequest(body) && env.create.Created? && env.profileWrite.None?
    then users[env.create.uid := NewProfile(body, callerUid, now)]
    else users
  }

  /** The four outcomes of a valid request, case by case. */
  lemma Outcomes(accounts: map<string, Json>, users: map<string, Profile>, body: Doc, callerUid: string,
                 env: Environment, now: int)
    requires ValidRequest(body)
    ensures var email, create := Get(body, "email").value, CreateUser(Get(body, "email").value, Get(body, "password").value);
      && (env.create.Rejected? ==>
           && Respond(body, env) == Response(500, false, None, ErrorText(env.create.message))
           && Calls(body, callerUid, env, now) == [create]
           && AccountsAfter(accounts, body, env) == accounts)
      && (env.create.TimedOut? ==>
           && Respond(body, env) == Response(500, false, None, ErrorText(TimeoutMessage))
           && Calls(body, callerUid, env, now) == [create]
           && AccountsAfter(accounts, body, env) ==
                (if env.create.lateUid.Some? then accounts[env.create.lateUid.value := email] else accounts))
      && (!env.create.Created? ==> ProfilesAfter(users, body, callerUid, env, now) == users)
  {
  }

  /** Adding a key and then removing it leaves the map without that key. */
  lemma UpdateThenRemove<K, V>(m: map<K, V>, k: K, v: V)
    ensures m[k := v] - {k} == m - {k}
  {
  }

  /** The identity provider, the `users` collection and the calls made to them. */
  class Provisioner {
    var accounts: map<string, Json>   // uid -> email
    var users: map<string, Profile>
    var calls: seq<Call>

    constructor(accounts0: map<string, Json>, users0: map<string, Profile>)
      ensures accounts == accounts0 && users == users0 && calls == []
    {
      accounts := accounts0;
      users := users0;
      calls := [];
    }

    /** The `/create-operator` handler, run by the admin `callerUid` at time `now`. */
    method CreateOperator(body: Doc, callerUid: string, env: Environment, now: int) returns (res: Response)
      modifies this
      ensures res == Respond(body, env)
      ensures calls == old(calls) + Calls(body, callerUid, env, now)
      ensures accounts == AccountsAfter(old(accounts), body, env)
      ensures users == ProfilesAfter(old(users), body, callerUid, env, now)
    {
      if !ValidRequest(body) {
        return Response(400, false, None, ValidationMessage);
      }
      var email, password := Get(body, "email").value, Get(body, "password").value;
      Outcomes(accounts, users, body, callerUid, env, now);
      calls := calls + [CreateUser(email, password)];
      if env.create.Rejected? {
        // the race rejects with the provider's error; no account is held
        return Response(500, false, None, ErrorText(env.create.message));
      }
      if env.create.TimedOut? {
        // the timer wins; a create that settles later still adds its account
        if env.create.lateUid.Some? {
          accounts := accounts[env.create.lateUid.value := email];
        }
        return Response(500, false, None, ErrorText(TimeoutMessage));
      }
      var uid := env.create.uid;
      accounts := accounts[uid := email];
      var profile := NewProfile(body, callerUid, now);
      calls := calls + [SetProfile(uid, profile)];
      if env.profileWrite.None? {
        users := users[uid := profile];
        return Response(201, true, Some(uid), "Operator created successfully");
      }
      // rollback, only for an account this run holds
      if uid != "" {
        AppendAssoc(old(calls), [CreateUser(email, password)], [SetProfile(uid, profile)]);
        calls := calls + [DeleteUser(uid)];
        if env.rollbackSucceeds {
          UpdateThenRemove(old(accounts), uid, email);
          accounts := accounts - {uid};
        }
      }
      return Response(500, false, None, ErrorText(env.profileWrite.value));
    }
  }

  // ----- properties -----

  /** How many of `cs` satisfy `p`. */
  function CountWhere(cs: seq<Call>, p: Call -> bool): (r: nat)
    ensures r <= |cs|
    decreases |cs|
  {
    if cs == [] then 0 else (if p(cs[0]) then 1 else 0) + CountWhere(cs[1..], p)
  }

  lemma {:induction false} CountWhereAppend(a: seq<Call>, b: seq<Call>, p: Call -> bool)
    ensures CountWhere(a + b, p) == CountWhere(a, p) + CountWhere(b, p)
    decreases |a|
  {
    if a != [] {
      assert (a + b)[0] == a[0];
      assert (a + b)[1..] == a[1..] + b;
      CountWhereAppend(a[1..], b, p);
    } else {
      assert a + b == b;
    }
  }

  predicate IsCreate(c: Call) { c.CreateUser? }
  predicate IsDelete(c: Call) { c.DeleteUser? }

  /** A rejected request gets 400 before any call, and nothing changes. */
  lemma ValidationFirst(body: Doc, callerUid: string, env: Environment, now: int,
                        accounts: map<string, Json>, users: map<string, Profile>)
    requires !ValidRequest(body)
    ensures Respond(body, env) == Response(400, false, None, ValidationMessage)
    ensures Calls(body, callerUid, env, now) == []
    ensures AccountsAfter(accounts, body, env) == accounts
    ensures ProfilesAfter(users, body, callerUid, env, now) == users
  {
  }

  /** A valid request makes exactly one `createUser` attempt, and it comes first. */
  lemma SingleAttempt(body: Doc, callerUid: string, env: Environment, now: int)
    requires ValidRequest(body)
    ensures var cs := Calls(body, callerUid, env, now);
      |cs| > 0 && cs[0].CreateUser? && CountWhere(cs, IsCreate) == 1
  {
    var cs := Calls(body, callerUid, env, now);
    var create := [CreateUser(Get(body, "email").value, Get(body, "password").value)];
    assert cs[..1] == create;
    CountWhereAppend(create, cs[1..], IsCreate);
    assert cs == create + cs[1..];
    if env.create.Created? {
      var rest := cs[1..];
      assert rest[0].SetProfile?;
      assert rest[1..] == [] || rest[1..] == [DeleteUser(env.create.uid)];
    }
  }

  /** Without a created account (refused or timed out) no rollback is issued and
      the response is 500. */
  lemma NoRollbackWithoutAccount(body: Doc, callerUid: string, env: Environment, now: int)
    requires ValidRequest(body) && !env.create.Created?
    ensures CountWhere(Calls(body, callerUid, env, now), IsDelete) == 0
    ensures Respond(body, env).status == 500
    ensures Respond(body, env).message == ErrorText(FailureMessage(env))
  {
  }

  /** Success writes the operator profile under the new uid and answers 201 with it. */
  lemma SuccessWritesProfile(body: Doc, callerUid: string, env: Environment, now: int,
                             accounts: map<string, Json>, users: map<string, Profile>)
    requires ValidRequest(body) && env.create.Created? && env.profileWrite.None?
    ensures var uid := env.create.uid;
      var p := ProfilesAfter(users, body, callerUid, env, now)[uid];
      && Respond(body, env) == Response(201, true, Some(uid), "Operator created successfully")
      && p.email == Get(body, "email").value && p.role == "operator" && p.active
      && JArr(p.cameras) == Get(body, "cameras").value && p.createdBy == callerUid
      && uid in AccountsAfter(accounts, body, env)
      && CountWhere(Calls(body, callerUid, env, now), IsDelete) == 0
  {
    var cs := Calls(body, callerUid, env, now);
    assert cs == [cs[0]] + [cs[1]];
    CountWhereAppend([cs[0]], [cs[1]], IsDelete);
  }

  /** A failed profile write after a created account deletes that account exactly
      once, as the last call, and answers 500 with the write's own error, whether or
      not the deletion succeeds. */
  lemma RollbackOnce(body: Doc, callerUid: string, env: Environment, now: int)
    requires ValidRequest(body) && env.create.Created? && env.create.uid != ""
    requires env.profileWrite.Some?
    ensures var cs := Calls(body, callerUid, env, now);
      && CountWhere(cs, IsDelete) == 1 && cs[|cs| - 1] == DeleteUser(env.create.uid)
    ensures Respond(body, env) == Response(500, false, None, ErrorText(env.profileWrite.value))
    ensures Respond(body, env) == Respond(body, env.(rollbackSucceeds := !env.rollbackSucceeds))
  {
    var cs := Calls(body, callerUid, env, now);
    assert cs == [cs[0], cs[1]] + [cs[2]];
    CountWhereAppend([cs[0], cs[1]], [cs[2]], IsDelete);
    assert [cs[0], cs[1]] == [cs[0]] + [cs[1]];
    CountWhereAppend([cs[0]], [cs[1]], IsDelete);
  }

  /** A create that loses the race but completes later leaves an account with no
      profile and no rollback. */
  lemma LateAccountOrphaned(body: Doc, callerUid: string, env: Environment, now: int,
                            accounts: map<string, Json>, users: map<string, Profile>, late: string)
    requires ValidRequest(body) && env.create == TimedOut(Some(late))
    ensures late in AccountsAfter(accounts, body, env)
    ensures ProfilesAfter(users, body, callerUid, env, now) == users
    ensures Respond(body, env) == Response(500, false, None, SlowMessage)
  {
    assert OccursAt(TimeoutMessage, "timeout", 14);
    ContainsIff(TimeoutMessage, "timeout");
  }

  /** The timer's own error maps to the "too long" text. */
  lemma TimeoutText()
    ensures ErrorText(TimeoutMessage) == SlowMessage
  {
    assert OccursAt(TimeoutMessage, "timeout", 14);
    ContainsIff(TimeoutMessage, "timeout");
  }
}
