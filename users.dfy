/**
 * The user entity, its save path with the post-save role-sync handler, and the
 * manager's `create_user` / `create_superuser` factories.
 */
module Users {
  import opened Errors
  import opened Permissions
  import opened RoleSync

  /** The optional keyword arguments (`**other_fields`) a caller may pass to `create_user`. */
  datatype ExtraFields = ExtraFields(
    role: Option<string>,
    isStaff: Option<bool>,
    isActive: Option<bool>,
    isSuperuser: Option<bool>)

  /** A keyword-argument value as the caller passed it; `create_superuser` accepts only `True` itself. */
  datatype Arg = Bool(b: bool) | Int(i: int) | Text(s: string) | NoneValue

  /** The keyword arguments passed to `create_superuser`; its two flags may be any value. */
  datatype SuperuserArgs = SuperuserArgs(
    role: Option<string>,
    isStaff: Option<Arg>,
    isActive: Option<bool>,
    isSuperuser: Option<Arg>)

  /** The value a keyword argument has once it defaults to `d` when the caller omitted it. */
  function SetDefault(v: Option<Arg>, d: Arg): Arg {
    v.GetOr(d)
  }

  /**
   * The flag handling of `create_superuser`: both flags default to `True`; a flag that
   * is then anything but exactly `True` (False, 1, "yes", None) is rejected, is_staff
   * first. On success the arguments handed on to `create_user`.
   */
  function SuperuserFields(args: SuperuserArgs): (r: Result<ExtraFields>)
    ensures r.Success? <==> args.isStaff in {None, Some(Bool(true))} && args.isSuperuser in {None, Some(Bool(true))}
    ensures r.Success? ==> r.value.isStaff == Some(true) && r.value.isSuperuser == Some(true)
    ensures r.Success? ==> r.value.role == args.role && r.value.isActive == args.isActive
    ensures args.isStaff !in {None, Some(Bool(true))} ==> r == Failure(StaffRequired)
    ensures args.isStaff in {None, Some(Bool(true))} && args.isSuperuser !in {None, Some(Bool(true))} ==>
              r == Failure(SuperuserRequired)
  {
    var isStaff := SetDefault(args.isStaff, Bool(true));
    var isSuperuser := SetDefault(args.isSuperuser, Bool(true));
    if isStaff != Bool(true) then Failure(StaffRequired)
    else if isSuperuser != Bool(true) then Failure(SuperuserRequired)
    else Success(ExtraFields(args.role, Some(true), args.isActive, Some(true)))
  }

  /** An email was given and it is not empty (Python treats None and "" as false). */
  predicate HasEmail(email: Option<string>) {
    email.Some? && email.value != ""
  }

  /** The unsaved user built from the given fields and extra fields, with the field defaults. */
  function NewAccount(firstName: string, lastName: string, email: string, userName: string,
                      extra: ExtraFields): Account
  {
    Account(firstName, lastName, email, userName, "",
            extra.role.GetOr(NonAdmin), extra.isStaff.GetOr(false),
            extra.isActive.GetOr(true), extra.isSuperuser.GetOr(false), {})
  }

  /**
   * The end-to-end superuser property on values: whatever role or is_active the caller
   * passes, the account `create_superuser` builds comes out of the role rule as an ADMIN
   * that is staff and superuser and holds exactly the post permissions.
   */
  lemma SuperuserAccountIsAdmin(firstName: string, lastName: string, email: string, userName: string,
                                password: string, args: SuperuserArgs, post: seq<Permission>)
    requires SuperuserFields(args).Success?
    ensures var r := Sync(NewAccount(firstName, lastName, email, userName, SuperuserFields(args).value)
                            .(password := password), post);
            r.role == Admin && r.isStaff && r.isSuperuser && r.permissions == Elems(post) &&
            r.isActive == args.isActive.GetOr(true)
  {
  }

  class User {
    var firstName: string
    var lastName: string
    var email: string
    var userName: string
    var password: string
    var role: string
    var isStaff: bool
    var isActive: bool
    var isSuperuser: bool
    var userPermissions: set<Permission>
    /** The row last written for this user; None before its first save. */
    var stored: Option<Account>

    /** The current field values of this user. */
    function Snapshot(): Account
      reads this
    {
      Account(firstName, lastName, email, userName, password, role,
              isStaff, isActive, isSuperuser, userPermissions)
    }

    /** Builds a user from the given fields and extra fields; it is not yet saved. */
    constructor (firstName: string, lastName: string, email: string, userName: string, extra: ExtraFields)
      ensures Snapshot() == NewAccount(firstName, lastName, email, userName, extra)
      ensures stored == None
    {
      this.firstName, this.lastName := firstName, lastName;
      this.email, this.userName := email, userName;
      this.password := "";
      this.role := extra.role.GetOr(NonAdmin);
      this.isStaff := extra.isStaff.GetOr(false);
      this.isActive := extra.isActive.GetOr(true);
      this.isSuperuser := extra.isSuperuser.GetOr(false);
      this.userPermissions := {};
      this.stored := None;
    }

    /** `set_password`: store the hash of `raw`; `hash` stands for the framework's hasher. */
    method SetPassword(raw: string, hash: string -> string)
      modifies this`password
      ensures Snapshot() == old(Snapshot()).(password := hash(raw))
    {
      password := hash(raw);
    }

    /** Write the current field values as this user's row, without firing the post-save handler. */
    method Persist()
      modifies this`stored
      ensures stored == Some(Snapshot())
    {
      stored := Some(Snapshot());
    }

    /** Grants the permissions of `ps` one at a time, in order. */
    method AddPermissions(ps: seq<Permission>)
      modifies this`userPermissions
      ensures userPermissions == AddAll(old(userPermissions), ps)
    {
      for i := 0 to |ps|
        invariant userPermissions == AddAll(old(userPermissions), ps[..i])
      {
        assert ps[..i + 1][..i] == ps[..i];
        userPermissions := userPermissions + {ps[i]};
      }
      assert ps[..|ps|] == ps;
    }

    /** Revokes the permissions of `ps` one at a time, in order. */
    method RemovePermissions(ps: seq<Permission>)
      modifies this`userPermissions
      ensures userPermissions == RemoveAll(old(userPermissions), ps)
    {
      for i := 0 to |ps|
        invariant userPermissions == RemoveAll(old(userPermissions), ps[..i])
      {
        assert ps[..i + 1][..i] == ps[..i];
        userPermissions := userPermissions - {ps[i]};
      }
      assert ps[..|ps|] == ps;
    }

    /**
     * `save()`: write the row, then run the post-save handler exactly once. When the
     * handler's lookups fail the first write stays and the error is raised.
     */
    method Save(catalog: seq<Permission>) returns (o: Outcome)
      modifies this
      ensures PostPermissions(catalog).Failure? ==>
                o == Fail(PostPermissions(catalog).error) &&
                Snapshot() == old(Snapshot()) && stored == Some(old(Snapshot()))
      ensures PostPermissions(catalog).Success? ==>
                o == Pass &&
                Snapshot() == Sync(old(Snapshot()), PostPermissions(catalog).value) &&
                stored == Some(Snapshot())
    {
      Persist();
      o := Status(this, catalog);
    }
  }

  /**
   * The post-save handler `status`: look up the four post permissions (failing before
   * any change when one is missing or ambiguous), apply the role rule to `instance`,
   * then write it again without re-running the handler.
   */
  method Status(instance: User, catalog: seq<Permission>) returns (o: Outcome)
    modifies instance
    ensures PostPermissions(catalog).Failure? ==>
              o == Fail(PostPermissions(catalog).error) && unchanged(instance)
    ensures PostPermissions(catalog).Success? ==>
              o == Pass &&
              instance.Snapshot() == Sync(old(instance.Snapshot()), PostPermissions(catalog).value) &&
              instance.stored == Some(instance.Snapshot())
  {
    var lookup := PostPermissions(catalog);
    if lookup.Failure? {
      return Fail(lookup.error);
    }
    ApplyRole(instance, lookup.value);
    instance.Persist();
    o := Pass;
  }

  /**
   * The body of the handler once the permissions `post` are found: promote a superuser
   * to ADMIN, then grant `post` to ADMIN and MODERATOR (making them staff, and an ADMIN
   * superuser) or revoke it from any other role (removing staff status).
   */
  method ApplyRole(instance: User, post: seq<Permission>)
    modifies instance
    ensures instance.Snapshot() == Sync(old(instance.Snapshot()), post)
    ensures instance.stored == old(instance.stored)
  {
    if instance.isSuperuser {
      instance.role := Admin;
    }
    if IsStaffRole(instance.role) {
      instance.isStaff := true;
      if instance.role == Admin {
        instance.isSuperuser := true;
      }
      instance.AddPermissions(post);
    } else {
      instance.isStaff := false;
      instance.RemovePermissions(post);
    }
  }

  /**
   * `CustomUserManager.create_user`: reject a missing or empty email, build the user
   * with the normalised email and the extra fields, set its password and save it.
   * `normalize` stands for `normalize_email` and `hash` for the password hasher.
   */
  method CreateUser(firstName: string, lastName: string, email: Option<string>, userName: string,
                    password: string, extra: ExtraFields, catalog: seq<Permission>,
                    normalize: string -> string, hash: string -> string)
    returns (r: Result<User>)
    ensures !HasEmail(email) ==> r == Failure(EmailRequired)
    ensures HasEmail(email) && PostPermissions(catalog).Failure? ==> r == Failure(PostPermissions(catalog).error)
    ensures HasEmail(email) && PostPermissions(catalog).Success? ==>
              r.Success? && fresh(r.value) &&
              r.value.Snapshot() ==
                Sync(NewAccount(firstName, lastName, normalize(email.value), userName, extra).(password := hash(password)),
                     PostPermissions(catalog).value) &&
              r.value.stored == Some(r.value.Snapshot())
  {
    if !HasEmail(email) {
      return Failure(EmailRequired);
    }
    var normalized := normalize(email.value);
    var user := new User(firstName, lastName, normalized, userName, extra);
    user.SetPassword(password, hash);
    var saved := user.Save(catalog);
    if saved.Fail? {
      return Failure(saved.error);
    }
    r := Success(user);
  }

  /**
   * `CustomUserManager.create_superuser`: default both flags to True, reject either flag
   * when it is not exactly True, then hand on to `create_user`. A user it returns is an
   * ADMIN, staff and superuser, and holds exactly the four post permissions.
   */
  method CreateSuperuser(firstName: string, lastName: string, email: Option<string>, userName: string,
                         password: string, args: SuperuserArgs, catalog: seq<Permission>,
                         normalize: string -> string, hash: string -> string)
    returns (r: Result<User>)
    ensures SuperuserFields(args).Failure? ==> r == Failure(SuperuserFields(args).error)
    ensures SuperuserFields(args).Success? && !HasEmail(email) ==> r == Failure(EmailRequired)
    ensures SuperuserFields(args).Success? && HasEmail(email) ==>
              (r.Success? <==> PostPermissions(catalog).Success?)
    ensures SuperuserFields(args).Success? && HasEmail(email) && PostPermissions(catalog).Failure? ==>
              r == Failure(PostPermissions(catalog).error)
    ensures r.Success? ==>
              r.value.Snapshot() ==
                Sync(NewAccount(firstName, lastName, normalize(email.value), userName, SuperuserFields(args).value)
                       .(password := hash(password)),
                     PostPermissions(catalog).value)
    ensures r.Success? ==>
              fresh(r.value) && PostPermissions(catalog).Success? &&
              r.value.role == Admin && r.value.isStaff && r.value.isSuperuser &&
              r.value.userPermissions == Elems(PostPermissions(catalog).value) &&
              r.value.email == normalize(email.value) && r.value.password == hash(password) &&
              r.value.stored == Some(r.value.Snapshot())
  {
    var fields := SuperuserFields(args);
    if fields.Failure? {
      return Failure(fields.error);
    }
    r := CreateUser(firstName, lastName, email, userName, password, fields.value, catalog, normalize, hash);
  }
}
