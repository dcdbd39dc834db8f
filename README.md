# Blog user accounts: role sync and user creation

This project models the account logic of the blog backend's `Users` app
(`BlogsWebsiteBackend/Users/models.py`). It covers two pieces.

- **The post-save handler `status`.** It runs after every save of a `User`. It looks up the four
  permissions "Can view post", "Can add post", "Can change post" and "Can delete post" by name
  (failing before any change when one is missing). A superuser is promoted to `ADMIN`.
  `ADMIN` and `MODERATOR` become staff, an `ADMIN` also becomes superuser, and both are granted
  the four permissions one at a time. Any other role string loses staff status and has the four
  permissions revoked one at a time. The handler then writes the user again with itself
  disconnected, so a save runs the rule exactly once.
- **The manager's factories.** `create_user` rejects a missing or empty email, builds the user
  with the normalised email and extra fields, sets its password and saves it, which runs the rule.
  `create_superuser` defaults `is_staff` and `is_superuser` to `True`. It rejects either flag
  when it is anything but exactly `True`, then hands on to `create_user`.

Layout:

- `errors.dfy` (module `Errors`): `Option`, `Result`, `Outcome`, and the exceptions raised.
- `permissions.dfy` (module `Permissions`): permission rows and the name lookup
  `Permission.objects.get`. It also holds the four handler lookups and the one-at-a-time
  grant/revoke loops as set folds, with lemmas giving their set meaning.
- `role_sync.dfy` (module `RoleSync`): the value snapshot `Account` of a user and the rule
  `Sync` on it, with the properties the rule promises.
- `users.dfy` (module `Users`): the `User` class with its fields, the handler `Status`, `save`,
  and `CreateUser` / `CreateSuperuser`. `Save`, `Status` and `ApplyRole` are proved to move
  the object's `Snapshot()` exactly as `Sync` says. `AddPermissions` and `RemovePermissions`
  are proved equal to the one-at-a-time grant and revoke folds.

The `role` field is a string, as in the source (a `CharField` with choices). So the model
covers every role value, not only the three choices. Choices are not enforced on assignment
or save. Any string other than `ADMIN` or `MODERATOR` takes the revoke branch.

Two behaviours of the code are worth stating outright:
- `create_superuser` rejects a flag value that is anything other than the object `True`
  (models.py:38-42). `False`, `1`, `"yes"` and an explicit `None` are all rejected, not only
  an explicit `False`.
- The rule never clears `is_superuser` (models.py:107-108, 113-114). A superuser is promoted
  back to `ADMIN` on every save, even after its role is changed.

## Model

| member | source | states |
|---|---|---|
| `Permissions.Get` | BlogsWebsiteBackend/Users/models.py:101-104 | a lookup by name either succeeds with a catalog row carrying that name, or fails with DoesNotExist or MultipleObjectsReturned for that name |
| `Permissions.GetOutcomes` | BlogsWebsiteBackend/Users/models.py:101-104 | the lookup fails with DoesNotExist exactly when no row has the name, with MultipleObjectsReturned exactly when two distinct rows have it, and succeeds exactly when some row has it and no two do |
| `Permissions.PostPermissions` | BlogsWebsiteBackend/Users/models.py:101-105 | the four lookups succeed exactly when each of the four names is found; on success they give four catalog rows whose names are view, add, change, delete in that order; on failure the error is that of the first lookup to fail, in the order view, add, change, delete, every earlier lookup having succeeded |
| `Permissions.AddAllIsUnion` | BlogsWebsiteBackend/Users/models.py:117-118 | adding the listed permissions one at a time yields the old set plus exactly the listed ones |
| `Permissions.RemoveAllIsDifference` | BlogsWebsiteBackend/Users/models.py:122-123 | removing the listed permissions one at a time yields the old set minus exactly the listed ones |
| `Permissions.AddAllIdempotent` | BlogsWebsiteBackend/Users/models.py:117-118 | granting twice equals granting once; granting permissions already held changes nothing |
| `Permissions.RemoveAllIdempotent` | BlogsWebsiteBackend/Users/models.py:122-123 | revoking twice equals revoking once; revoking permissions not held changes nothing |
| `RoleSync.Sync` | BlogsWebsiteBackend/Users/models.py:107-123 | after the rule the role is ADMIN for a superuser and unchanged otherwise; staff exactly when the role is ADMIN or MODERATOR; superuser exactly when the role is ADMIN; superuser never cleared; staff roles gain the post permissions, all other roles lose them, other permissions are untouched; names, email, user name, password and is_active are unchanged |
| `RoleSync.SyncPermissionsFollowRole` | BlogsWebsiteBackend/Users/models.py:115-123 | after the rule a post permission is held exactly when the role is ADMIN or MODERATOR, and any other permission is held exactly when it was held before |
| `RoleSync.SyncIdempotent` | BlogsWebsiteBackend/Users/models.py:107-123 | applying the rule to its own output changes nothing, so a second save changes neither flags nor permissions |
| `RoleSync.SuperuserBecomesAdmin` | BlogsWebsiteBackend/Users/models.py:107-118 | a superuser always comes out as an ADMIN that is staff and superuser and holds every post permission |
| `Users.SuperuserFields` | BlogsWebsiteBackend/Users/models.py:35-42 | the flag checks pass exactly when each flag is omitted or exactly True; on success both flags handed on are True and role and is_active pass through; a bad is_staff fails with the is_staff error before is_superuser is looked at |
| `Users.SuperuserAccountIsAdmin` | BlogsWebsiteBackend/Users/models.py:34-44 | whatever role and is_active are passed, an account built from flags that passed the checks comes out of the rule as an ADMIN, staff and superuser holding exactly the post permissions, with is_active as passed (default true) |
| `Users.User.constructor` | BlogsWebsiteBackend/Users/models.py:26-27 | a new unsaved user holds the given fields, role NON_ADMIN, not staff, active and not superuser unless the extra fields say otherwise, an empty password and no permissions |
| `Users.User.SetPassword` | BlogsWebsiteBackend/Users/models.py:29 | the password becomes the hash of the raw password and no other field changes |
| `Users.User.Persist` | BlogsWebsiteBackend/Users/models.py:125-128 | the stored row becomes the current field values, without running the handler again |
| `Users.User.AddPermissions` | BlogsWebsiteBackend/Users/models.py:117-118 | the loop leaves the permission set equal to the one-at-a-time grant of the list |
| `Users.User.RemovePermissions` | BlogsWebsiteBackend/Users/models.py:122-123 | the loop leaves the permission set equal to the one-at-a-time revocation of the list |
| `Users.User.Save` | BlogsWebsiteBackend/Users/models.py:99-100 | save writes the row and runs the handler once; on success the user and its stored row equal the rule applied to the user before the save; on a failed lookup the error is raised, the user is unchanged and the row written is the pre-save state |
| `Users.Status` | BlogsWebsiteBackend/Users/models.py:99-128 | on a failed lookup the error is raised and the user is untouched; otherwise the user becomes the rule applied to it and is written again |
| `Users.ApplyRole` | BlogsWebsiteBackend/Users/models.py:107-123 | the promotions, flag updates and grant or revoke loops move the user exactly as the rule does, and write nothing |
| `Users.CreateUser` | BlogsWebsiteBackend/Users/models.py:21-32 | a missing or empty email fails with the email error and no user is returned; otherwise a failed lookup raises its error; otherwise a fresh user is returned, equal to the rule applied to the built user with the normalised email and hashed password, and stored as such |
| `Users.CreateSuperuser` | BlogsWebsiteBackend/Users/models.py:34-44 | a flag that is not exactly True fails with its error before anything else; then a missing or empty email fails with the email error; then a failed lookup raises its error; a returned user is fresh, equal to the rule applied to the built account (given names, user name, normalised email, hashed password, role and is_active as passed, both flags True), and stored as such; it is ADMIN, staff and superuser and holds exactly the four post permissions |

## Left out

- `tokens()` (lines 91-96) is left out: it is a thin wrapper over a JWT library whose encoding is not part of this model.
- `normalize_email` and the password hasher behind `set_password` belong to the framework. They are parameters of `CreateUser` and `CreateSuperuser` (functions `normalize` and `hash`), so no property of their output is assumed.
- Persistence is a single `stored` snapshot per user object. The database table, the uniqueness of `email` and `user_name`, `max_length` limits, `created_at` (`auto_now_add`) and the `groups` relation are not modelled.
- Users.CreateUser: when the handler's lookups fail inside `create_user`, the row written by the first save stays in the database. The model returns only the error, so that orphan row is not observable.
- The signal bus is replaced by "a save runs the handler exactly once": `@receiver`, `disconnect` and `connect`. Its concurrency hazard is not modelled, because two saves racing on the global handler registration is not sequential logic.
- Logging and the translated message text of the `ValueError`s are not modelled. Each error is a constructor of `Errors.Error`.
- `**other_fields` of `create_user` is a record of the four optional fields a caller sets: `role`, `is_staff`, `is_active` and `is_superuser`. Unknown keyword arguments (a `TypeError` in the source) are not modelled. Flag values other than booleans passed straight to `create_user` are not modelled either. The handler tests the attribute as passed, by Python truthiness (models.py:107), while the database field coerces it on save. So `is_superuser="False"` yields an `ADMIN` superuser in the source, and this model cannot express that case.
