/** The custom user model and its manager (`CustomUserManager`): the
    email requirement of `create_user` and the flag defaulting and checks of
    `create_superuser`. */
module UsersModels {
  import opened Wrappers

  /** A Python value passed to the manager, as far as its checks look at it. */
  datatype Value = Bool(b: bool) | Int(i: int) | Str(s: string) | NoneValue

  /** Python truthiness (`if not email`). */
  predicate Truthy(v: Value)
  {
    match v
    case Bool(b) => b
    case Int(i) => i != 0
    case Str(s) => s != ""
    case NoneValue => false
  }

  /** The `**extra_fields` keyword arguments. */
  type Fields = map<string, Value>

  /** `fields.setdefault(k, v)`: adds `k` with `v` only when `k` is absent,
      and never overrides a value the caller gave. */
  function SetDefault(fields: Fields, k: string, v: Value): (r: Fields)
    ensures k in r && r[k] == (if k in fields then fields[k] else v)
    ensures r.Keys == fields.Keys + {k}
    ensures forall j :: j in fields ==> r[j] == fields[j]
  {
    if k in fields then fields else fields[k := v]
  }

  /** An unsaved `self.model(email=..., **extra_fields)` on which
      `set_password(password)` has been called. */
  datatype UserDraft = UserDraft(email: string, password: Value, extra: Fields)

  datatype UserError = ValueError(message: string)

  const NoEmail := "Users must have an email address"
  const NotStaff := "Superuser must have is_staff=True."
  const NotSuperuser := "Superuser must have is_superuser=True."

  /** `create_user`: a falsy email raises before anything is built;
      otherwise the user gets the normalised email, the password and every
      extra field as given. */
  function CreateUser(email: Value, password: Value, extra: Fields, normalize: Value -> string): (r: Result<UserDraft, UserError>)
    ensures r.Err? <==> !Truthy(email)
    ensures r.Err? ==> r.error == ValueError(NoEmail)
    ensures r.Ok? ==> r.value.email == normalize(email) && r.value.password == password && r.value.extra == extra
  {
    if !Truthy(email) then Err(ValueError(NoEmail))
    else Ok(UserDraft(normalize(email), password, extra))
  }

  /** The value a flag has once `setdefault(flag, True)` has run. */
  function FlagAfterDefault(extra: Fields, flag: string): Value
  {
    if flag in extra then extra[flag] else Bool(true)
  }

  /** `create_superuser`: default both flags to True, insist that each is
      the value True itself (is_staff first), then delegate. */
  method CreateSuperuser(email: Value, password: Value, extraFields: Fields, normalize: Value -> string)
    returns (r: Result<UserDraft, UserError>)
    ensures FlagAfterDefault(extraFields, "is_staff") != Bool(true) ==> r == Err(ValueError(NotStaff))
    ensures FlagAfterDefault(extraFields, "is_staff") == Bool(true) && FlagAfterDefault(extraFields, "is_superuser") != Bool(true)
      ==> r == Err(ValueError(NotSuperuser))
    ensures FlagAfterDefault(extraFields, "is_staff") == Bool(true) && FlagAfterDefault(extraFields, "is_superuser") == Bool(true)
      ==> r == CreateUser(email, password, extraFields["is_staff" := Bool(true)]["is_superuser" := Bool(true)], normalize)
    ensures "is_staff" in extraFields && extraFields["is_staff"] != Bool(true) ==> r == Err(ValueError(NotStaff))
    ensures "is_staff" !in extraFields && "is_superuser" !in extraFields && Truthy(email)
      ==> r.Ok? && r.value.extra["is_staff"] == Bool(true) && r.value.extra["is_superuser"] == Bool(true)
  {
    var fields := extraFields;
    fields := SetDefault(fields, "is_staff", Bool(true));
    fields := SetDefault(fields, "is_superuser", Bool(true));
    if !("is_staff" in fields && fields["is_staff"] == Bool(true)) {
      return Err(ValueError(NotStaff));
    }
    if !("is_superuser" in fields && fields["is_superuser"] == Bool(true)) {
      return Err(ValueError(NotSuperuser));
    }
    assert fields == extraFields["is_staff" := Bool(true)]["is_superuser" := Bool(true)];
    r := CreateUser(email, password, fields, normalize);
  }

  /** `create_superuser(email, password, is_staff=1)` is refused with the
      is_staff message: the flag is truthy, but `is not True` compares
      identity with True and `setdefault` keeps the given 1. */
  lemma TruthyStaffFlagIsRefused(extra: Fields)
    requires extra == map["is_staff" := Int(1)]
    ensures Truthy(extra["is_staff"])
    ensures FlagAfterDefault(extra, "is_staff") == Int(1) != Bool(true)
    ensures SetDefault(extra, "is_staff", Bool(true))["is_staff"] == Int(1)
  {
  }

  /** A stored `CustomUser`: its primary key and the fields the filters and
      the permission look at. */
  datatype Account = Account(id: int, email: string, isActive: bool, isStaff: bool)
}
