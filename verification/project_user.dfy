/** `get_model_traversal_path`, `get_project_user_model` and `is_user_model`
    (django_utz/decorators/models/utils.py): the project's user model is recognised by
    comparing module-path strings with the `AUTH_USER_MODEL` setting. */
module ProjectUser {
  import opened Strings
  import opened Schema

  /** `get_project_user_model`: AUTH_USER_MODEL split once at its first dot, with
      "models" inserted as the second segment, joined again with dots. */
  function ProjectUserModelPath(authUserModel: string): (r: string)
    ensures '.' in authUserModel ==>
              var i := IndexOf(authUserModel, '.');
              r == authUserModel[..i] + ".models." + authUserModel[i + 1..]
    ensures '.' !in authUserModel ==> r == authUserModel + ".models"
  {
    var split := SplitOnce(authUserModel, '.');
    var parts := [split[0], "models"] + split[1..];
    if |split| == 2 then
      assert parts == [split[0], "models", split[1]];
      JoinTriple(split[0], "models", split[1], '.');
      IndexOfAfterFree(split[0], split[1], '.');
      var i := IndexOf(authUserModel, '.');
      assert authUserModel[..i] == split[0] && authUserModel[i + 1..] == split[1];
      Join(parts, '.')
    else
      assert parts == [authUserModel, "models"];
      JoinPair(authUserModel, "models", '.');
      Join(parts, '.')
  }

  /** `is_user_model`: "<module>.<name>" of the class equals the project user path. */
  predicate IsUserModel(authUserModel: string, c: ModelClass)
  {
    ProjectUserModelPath(authUserModel) == Qualname(c)
  }

  /** The first separator after a separator-free prefix is right after that prefix. */
  lemma {:induction false} IndexOfAfterFree(p: string, rest: string, c: char)
    requires c !in p
    ensures IndexOf(p + [c] + rest, c) == |p|
    decreases |p|
  {
    if p != "" {
      assert (p + [c] + rest)[1..] == p[1..] + [c] + rest;
      IndexOfAfterFree(p[1..], rest, c);
    }
  }

  /** "app.User" names the class `User` defined in module "app.models". */
  lemma AppUserPath()
    ensures ProjectUserModelPath("app.User") == "app.models.User"
  {
    assert IndexOf("app.User", '.') == 3;
  }

  /** With AUTH_USER_MODEL "<app>.<Name>", exactly the class named Name in module
      "<app>.models" is the user model; the same class in any other module (a models
      package such as "<app>.models.users", say) is not. */
  lemma IsUserModelExactly(app: string, userName: string, c: ModelClass)
    requires '.' !in app
    ensures IsUserModel(app + "." + userName, c) <==> Qualname(c) == app + ".models." + userName
  {
    var s := app + "." + userName;
    assert s[|app|] == '.';
    IndexOfAfterFree(app, userName, '.');
    var i := IndexOf(s, '.');
    assert s[..i] == app && s[i + 1..] == userName;
  }
}
