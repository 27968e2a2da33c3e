/**
 * `AppConfiguration`: the four GitHub App credentials, each taken from an
 * explicit argument or, when that argument is absent or empty, from the
 * process environment; construction fails with one message naming every
 * missing credential.
 */
module AppConfig {
  import opened Wrappers
  import Text

  /** The process environment: variable name to value. */
  type Env = map<string, string>

  const AppIdVar: string := "GITHUB_APP_ID"
  const AppNameVar: string := "GITHUB_APP_NAME"
  const PrivateKeyVar: string := "GITHUB_APP_PRIVATE_KEY"
  const OrgVar: string := "GITHUB_ORG_NAME"

  /** The order in which missing credentials are reported. */
  const FieldOrder: seq<string> := [AppIdVar, AppNameVar, PrivateKeyVar, OrgVar]

  /** A successfully constructed configuration; every field is non-empty. */
  datatype AppConfiguration = AppConfiguration(appId: string, appName: string, privateKey: string, org: string)

  /** `os.getenv(key)`. */
  function GetEnv(env: Env, key: string): Option<string> {
    if key in env then Some(env[key]) else None
  }

  /** Python truthiness of an optional string: present and non-empty. */
  predicate Truthy(v: Option<string>) {
    v.Some? && v.value != ""
  }

  /** `argument or os.getenv(key)`. */
  function Resolve(argument: Option<string>, env: Env, key: string): Option<string> {
    if Truthy(argument) then argument else GetEnv(env, key)
  }

  /** The four resolved credentials, each paired with the variable that names it, in reporting order. */
  function ResolvedFields(appId: Option<string>, appName: Option<string>, privateKey: Option<string>,
                          org: Option<string>, env: Env): seq<(string, Option<string>)>
  {
    [(AppIdVar, Resolve(appId, env, AppIdVar)),
     (AppNameVar, Resolve(appName, env, AppNameVar)),
     (PrivateKeyVar, Resolve(privateKey, env, PrivateKeyVar)),
     (OrgVar, Resolve(org, env, OrgVar))]
  }

  function Names(fields: seq<(string, Option<string>)>): (r: seq<string>)
    ensures |r| == |fields|
    ensures forall i :: 0 <= i < |fields| ==> r[i] == fields[i].0
  {
    if fields == [] then [] else [fields[0].0] + Names(fields[1..])
  }

  /** The names of the fields whose value is absent or empty, in the fields' order. */
  function Missing(fields: seq<(string, Option<string>)>): seq<string> {
    if fields == [] then []
    else (if Truthy(fields[0].1) then [] else [fields[0].0]) + Missing(fields[1..])
  }

  /** `a` is `b` with some elements left out, the rest in the same order. */
  predicate Subsequence(a: seq<string>, b: seq<string>) {
    if a == [] then true
    else if b == [] then false
    else if a[0] == b[0] then Subsequence(a[1..], b[1..])
    else Subsequence(a, b[1..])
  }

  /** A name is reported exactly when some field with that name is missing. */
  lemma {:induction false} MissingNamesAbsentFields(fields: seq<(string, Option<string>)>, name: string)
    ensures name in Missing(fields) <==> exists i :: 0 <= i < |fields| && fields[i].0 == name && !Truthy(fields[i].1)
  {
    if fields != [] {
      MissingNamesAbsentFields(fields[1..], name);
      if name in Missing(fields[1..]) {
        var i :| 0 <= i < |fields[1..]| && fields[1..][i].0 == name && !Truthy(fields[1..][i].1);
        assert fields[i + 1] == fields[1..][i];
      }
      if exists i :: 0 <= i < |fields| && fields[i].0 == name && !Truthy(fields[i].1) {
        var i :| 0 <= i < |fields| && fields[i].0 == name && !Truthy(fields[i].1);
        if i > 0 { assert fields[1..][i - 1] == fields[i]; }
      }
    }
  }

  /** The report keeps the fields' order: it is a subsequence of their names. */
  lemma {:induction false} MissingKeepsOrder(fields: seq<(string, Option<string>)>)
    ensures Subsequence(Missing(fields), Names(fields))
  {
    if fields != [] {
      MissingKeepsOrder(fields[1..]);
      var rest := Names(fields[1..]);
      assert Names(fields) == [fields[0].0] + rest;
      if Truthy(fields[0].1) {
        assert Missing(fields) == Missing(fields[1..]);
        SubsequenceCons(Missing(fields[1..]), rest, fields[0].0);
      } else {
        assert Missing(fields) == [fields[0].0] + Missing(fields[1..]);
        assert ([fields[0].0] + rest)[1..] == rest;
        assert ([fields[0].0] + Missing(fields[1..]))[1..] == Missing(fields[1..]);
      }
    }
  }

  /** A subsequence of `b` is a subsequence of `b` with one more element in front. */
  lemma {:induction false} SubsequenceCons(a: seq<string>, b: seq<string>, x: string)
    requires Subsequence(a, b)
    ensures Subsequence(a, [x] + b)
    decreases |a| + |b|, 1
  {
    assert ([x] + b)[1..] == b;
    if a != [] && a[0] == x {
      SubsequenceTail(a, b);
    }
  }

  /** Dropping the first element of a subsequence keeps it a subsequence. */
  lemma {:induction false} SubsequenceTail(a: seq<string>, b: seq<string>)
    requires a != [] && Subsequence(a, b)
    ensures Subsequence(a[1..], b)
    decreases |a| + |b|, 0
  {
    assert b == [b[0]] + b[1..];
    if a[0] == b[0] {
      SubsequenceCons(a[1..], b[1..], b[0]);
    } else {
      SubsequenceTail(a, b[1..]);
      SubsequenceCons(a[1..], b[1..], b[0]);
    }
  }

  /** Nothing is reported exactly when every field is present and non-empty. */
  lemma {:induction false} MissingEmptyIffAllPresent(fields: seq<(string, Option<string>)>)
    ensures Missing(fields) == [] <==> forall i :: 0 <= i < |fields| ==> Truthy(fields[i].1)
  {
    if fields != [] {
      MissingEmptyIffAllPresent(fields[1..]);
      assert forall i :: 1 <= i < |fields| ==> fields[i] == fields[1..][i - 1];
    }
  }

  function MissingMessage(missing: seq<string>): string {
    "Missing required configuration: " + Text.Join(missing, ", ")
    + ". Please provide as parameters or set environment variables."
  }

  /**
   * `AppConfiguration(github_app_id, github_app_name, github_app_private_key, github_org)`:
   * resolves each field from its argument or the environment, collects the
   * missing ones in reporting order, and fails naming all of them.
   */
  method Construct(appId: Option<string>, appName: Option<string>, privateKey: Option<string>,
                   org: Option<string>, env: Env) returns (r: Result<AppConfiguration, string>)
    ensures r.Failure? <==> Missing(ResolvedFields(appId, appName, privateKey, org, env)) != []
    ensures r.Failure? ==> r.error == MissingMessage(Missing(ResolvedFields(appId, appName, privateKey, org, env)))
    ensures r.Success? ==>
      && Some(r.value.appId) == Resolve(appId, env, AppIdVar)
      && Some(r.value.appName) == Resolve(appName, env, AppNameVar)
      && Some(r.value.privateKey) == Resolve(privateKey, env, PrivateKeyVar)
      && Some(r.value.org) == Resolve(org, env, OrgVar)
    ensures r.Success? ==> r.value.appId != "" && r.value.appName != "" && r.value.privateKey != "" && r.value.org != ""
  {
    var id := Resolve(appId, env, AppIdVar);
    var name := Resolve(appName, env, AppNameVar);
    var key := Resolve(privateKey, env, PrivateKeyVar);
    var owner := Resolve(org, env, OrgVar);
    ghost var fields := ResolvedFields(appId, appName, privateKey, org, env);

    var missing: seq<string> := [];
    if !Truthy(id) {
      missing := missing + [AppIdVar];
    }
    assert missing == Missing(fields[..1]);
    if !Truthy(name) {
      missing := missing + [AppNameVar];
    }
    assert missing == Missing(fields[..2]) by { MissingAppend(fields[..1], fields[1]); assert fields[..2] == fields[..1] + [fields[1]]; }
    if !Truthy(key) {
      missing := missing + [PrivateKeyVar];
    }
    assert missing == Missing(fields[..3]) by { MissingAppend(fields[..2], fields[2]); assert fields[..3] == fields[..2] + [fields[2]]; }
    if !Truthy(owner) {
      missing := missing + [OrgVar];
    }
    assert missing == Missing(fields) by { MissingAppend(fields[..3], fields[3]); assert fields == fields[..3] + [fields[3]]; }

    if missing != [] {
      return Failure(MissingMessage(missing));
    }
    MissingEmptyIffAllPresent(fields);
    assert Truthy(fields[0].1) && Truthy(fields[1].1) && Truthy(fields[2].1) && Truthy(fields[3].1);
    return Success(AppConfiguration(id.value, name.value, key.value, owner.value));
  }

  /** Checking one more field appends its name when it is missing. */
  lemma {:induction false} MissingAppend(fields: seq<(string, Option<string>)>, f: (string, Option<string>))
    ensures Missing(fields + [f]) == Missing(fields) + (if Truthy(f.1) then [] else [f.0])
  {
    if fields != [] {
      assert (fields + [f])[1..] == fields[1..] + [f];
      MissingAppend(fields[1..], f);
    } else {
      assert [f][1..] == [];
    }
  }

  /** `AppConfiguration.from_env()`: construction with every argument absent. */
  method FromEnv(env: Env) returns (r: Result<AppConfiguration, string>)
    ensures r.Failure? <==> Missing(ResolvedFields(None, None, None, None, env)) != []
    ensures r.Failure? ==> r.error == MissingMessage(Missing(ResolvedFields(None, None, None, None, env)))
    ensures r.Success? ==>
      && AppIdVar in env && AppNameVar in env && PrivateKeyVar in env && OrgVar in env
      && r.value == AppConfiguration(env[AppIdVar], env[AppNameVar], env[PrivateKeyVar], env[OrgVar])
  {
    r := Construct(None, None, None, None, env);
  }

  /** The four resolved fields report under the four variable names, in the fixed order. */
  lemma ResolvedFieldsInOrder(appId: Option<string>, appName: Option<string>, privateKey: Option<string>,
                              org: Option<string>, env: Env)
    ensures Names(ResolvedFields(appId, appName, privateKey, org, env)) == FieldOrder
  {
  }

  /**
   * Every missing credential is named, in the order GITHUB_APP_ID,
   * GITHUB_APP_NAME, GITHUB_APP_PRIVATE_KEY, GITHUB_ORG_NAME.
   */
  lemma ConstructReportsEveryMissingField(appId: Option<string>, appName: Option<string>,
                                          privateKey: Option<string>, org: Option<string>, env: Env)
    ensures var m := Missing(ResolvedFields(appId, appName, privateKey, org, env));
      && Subsequence(m, FieldOrder)
      && (AppIdVar in m <==> !Truthy(Resolve(appId, env, AppIdVar)))
      && (AppNameVar in m <==> !Truthy(Resolve(appName, env, AppNameVar)))
      && (PrivateKeyVar in m <==> !Truthy(Resolve(privateKey, env, PrivateKeyVar)))
      && (OrgVar in m <==> !Truthy(Resolve(org, env, OrgVar)))
  {
    var fields := ResolvedFields(appId, appName, privateKey, org, env);
    MissingKeepsOrder(fields);
    ResolvedFieldsInOrder(appId, appName, privateKey, org, env);
    assert forall i :: 0 <= i < |fields| ==> fields[i].0 == FieldOrder[i];
    assert |AppIdVar| == 13 && |AppNameVar| == 15 && |PrivateKeyVar| == 22 && |OrgVar| == 15;
    assert AppNameVar[7] != OrgVar[7];
    assert forall i, j :: 0 <= i < j < |fields| ==> fields[i].0 != fields[j].0;
    MissingReportsField(fields, 0);
    MissingReportsField(fields, 1);
    MissingReportsField(fields, 2);
    MissingReportsField(fields, 3);
  }

  /** With distinct names, a field is reported exactly when it is missing. */
  lemma MissingReportsField(fields: seq<(string, Option<string>)>, k: nat)
    requires k < |fields|
    requires forall i, j :: 0 <= i < j < |fields| ==> fields[i].0 != fields[j].0
    ensures fields[k].0 in Missing(fields) <==> !Truthy(fields[k].1)
  {
    MissingNamesAbsentFields(fields, fields[k].0);
  }

  /** An empty argument does not count as given: the environment value is used. */
  lemma EmptyArgumentFallsBack(env: Env, key: string)
    ensures Resolve(Some(""), env, key) == Resolve(None, env, key) == GetEnv(env, key)
  {
  }
}
