/** `UserSerializer`: the sign-up checks of `validate` and the key
    stripping of `create`. */
module UserSerializer {
  import opened Wrappers
  import opened UsersModels

  /** The validated fields, key to text. */
  type Attrs = map<string, string>

  /** An unsaved `User(**attrs)`, handed to the password validators. */
  datatype Candidate = Candidate(fields: Attrs)

  datatype SerializerError =
    | KeyError(key: string)
    | ValidationError(field: string, messages: seq<string>)
    | ConstructorError(message: string)   // whatever `User(**attrs)` raised
    | ManagerError(error: UserError)       // whatever `create_user` raised
    | MissingArgument(name: string)        // a required parameter of `create_user` not supplied

  const Mismatch := "Password fields didn't match."
  const Confirmation := "password_confirmation"

  /** Both password fields are there and equal: the first check passes. */
  predicate PasswordsAgree(attrs: Attrs)
  {
    "password" in attrs && Confirmation in attrs && attrs["password"] == attrs[Confirmation]
  }

  /** `validate`, with the model constructor and `validate_password` as
      parameters: `construct` builds the unsaved user or fails, `strength`
      answers None when the password is accepted and the validators'
      messages otherwise. */
  function Validate(attrs: Attrs, construct: Attrs -> Result<Candidate, string>,
                    strength: (string, Candidate) -> Option<seq<string>>): (r: Result<Attrs, SerializerError>)
    ensures "password" !in attrs ==> r == Err(KeyError("password"))
    ensures "password" in attrs && Confirmation !in attrs ==> r == Err(KeyError(Confirmation))
    ensures "password" in attrs && Confirmation in attrs && attrs["password"] != attrs[Confirmation]
      ==> r == Err(ValidationError("password", [Mismatch]))
    ensures PasswordsAgree(attrs) && construct(attrs).Err? ==> r == Err(ConstructorError(construct(attrs).error))
    ensures PasswordsAgree(attrs) && construct(attrs).Ok? && strength(attrs["password"], construct(attrs).value).Some?
      ==> r == Err(ValidationError("password", strength(attrs["password"], construct(attrs).value).value))
    ensures r.Ok? <==> PasswordsAgree(attrs) && construct(attrs).Ok? && strength(attrs["password"], construct(attrs).value).None?
    ensures r.Ok? ==> r.value == attrs
  {
    if "password" !in attrs then Err(KeyError("password"))
    else if Confirmation !in attrs then Err(KeyError(Confirmation))
    else if attrs["password"] != attrs[Confirmation] then Err(ValidationError("password", [Mismatch]))
    else
      match construct(attrs)
      case Err(e) => Err(ConstructorError(e))
      case Ok(user) =>
        match strength(attrs["password"], user)
        case Some(messages) => Err(ValidationError("password", messages))
        case None => Ok(attrs)
  }

  /** The mismatch check comes first: when it fails, neither the
      constructor nor the strength check has any say in the outcome. */
  lemma MismatchDecidesAlone(attrs: Attrs, c1: Attrs -> Result<Candidate, string>, s1: (string, Candidate) -> Option<seq<string>>,
                             c2: Attrs -> Result<Candidate, string>, s2: (string, Candidate) -> Option<seq<string>>)
    requires "password" in attrs && Confirmation in attrs && attrs["password"] != attrs[Confirmation]
    ensures Validate(attrs, c1, s1) == Validate(attrs, c2, s2) == Err(ValidationError("password", [Mismatch]))
  {
  }

  /** A constructor that, like a model's, refuses keyword arguments naming
      none of its fields. */
  ghost predicate RejectsUnknownFields(construct: Attrs -> Result<Candidate, string>, modelFields: set<string>)
  {
    forall a: Attrs :: !(a.Keys <= modelFields) ==> construct(a).Err?
  }

  /** With such a constructor, and `password_confirmation` not a field of
      the model, `validate` as written accepts nothing: the confirmation key
      is still in `attrs` when `User(**attrs)` is built. */
  lemma ValidateRejectsEverySignup(attrs: Attrs, construct: Attrs -> Result<Candidate, string>,
                                   strength: (string, Candidate) -> Option<seq<string>>, modelFields: set<string>)
    requires RejectsUnknownFields(construct, modelFields) && Confirmation !in modelFields
    ensures Validate(attrs, construct, strength).Err?
  {
    if Confirmation in attrs {
      assert !(attrs.Keys <= modelFields);
    }
  }

  /** `validate` as evidently intended: the unsaved user is built from the
      fields without the confirmation. */
  function ValidateFixed(attrs: Attrs, construct: Attrs -> Result<Candidate, string>,
                         strength: (string, Candidate) -> Option<seq<string>>): (r: Result<Attrs, SerializerError>)
    ensures r.Ok? ==> r.value == attrs
    ensures "password" in attrs && Confirmation in attrs && attrs["password"] != attrs[Confirmation]
      ==> r == Err(ValidationError("password", [Mismatch]))
  {
    if "password" !in attrs then Err(KeyError("password"))
    else if Confirmation !in attrs then Err(KeyError(Confirmation))
    else if attrs["password"] != attrs[Confirmation] then Err(ValidationError("password", [Mismatch]))
    else
      match construct(attrs - {Confirmation})
      case Err(e) => Err(ConstructorError(e))
      case Ok(user) =>
        match strength(attrs["password"], user)
        case Some(messages) => Err(ValidationError("password", messages))
        case None => Ok(attrs)
  }

  /** A constructor that builds a user from any keyword arguments that
      all name fields of the model. */
  ghost predicate AcceptsKnownFields(construct: Attrs -> Result<Candidate, string>, modelFields: set<string>)
  {
    forall a: Attrs :: a.Keys <= modelFields ==> construct(a).Ok?
  }

  /** With the fixed check and a model-like constructor, a sign-up whose
      other fields all belong to the model, whose passwords agree and whose
      password is strong enough is accepted unchanged. */
  lemma ValidateFixedAcceptsGoodSignup(attrs: Attrs, construct: Attrs -> Result<Candidate, string>,
                                       strength: (string, Candidate) -> Option<seq<string>>, modelFields: set<string>)
    requires RejectsUnknownFields(construct, modelFields) && AcceptsKnownFields(construct, modelFields)
    requires PasswordsAgree(attrs) && (attrs - {Confirmation}).Keys <= modelFields
    requires strength(attrs["password"], construct(attrs - {Confirmation}).value).None?
    ensures ValidateFixed(attrs, construct, strength) == Ok(attrs)
  {
    assert construct(attrs - {Confirmation}).Ok?;
  }

  /** `validated_data`, the dict `create` receives and changes in place. */
  class ValidatedData {
    var fields: Attrs

    constructor (fields: Attrs)
      ensures this.fields == fields
    {
      this.fields := fields;
    }

    /** `dict.pop(key)` without a default: KeyError when absent. */
    method Pop(key: string) returns (r: Result<string, SerializerError>)
      modifies this
      ensures key in old(fields) ==> r == Ok(old(fields)[key]) && fields == old(fields) - {key}
      ensures key !in old(fields) ==> r == Err(KeyError(key)) && fields == old(fields)
    {
      if key in fields {
        r := Ok(fields[key]);
        fields := fields - {key};
      } else {
        r := Err(KeyError(key));
      }
    }
  }

  /** `User.objects.create_user(**kwargs)`: `email` is the required
      positional parameter, `password` defaults to None, every other key
      lands in `extra_fields`. */
  function CreateUserFromKwargs(kwargs: Attrs, normalize: Value -> string): (r: Result<UserDraft, SerializerError>)
    ensures "email" !in kwargs ==> r == Err(MissingArgument("email"))
    ensures "email" in kwargs && kwargs["email"] == "" ==> r == Err(ManagerError(ValueError(NoEmail)))
    ensures r.Ok? <==> "email" in kwargs && kwargs["email"] != ""
    ensures r.Ok? ==> && r.value.email == normalize(Str(kwargs["email"]))
                      && r.value.password == (if "password" in kwargs then Str(kwargs["password"]) else NoneValue)
                      && r.value.extra.Keys == kwargs.Keys - {"email", "password"}
                      && forall k :: k in r.value.extra ==> r.value.extra[k] == Str(kwargs[k])
  {
    if "email" !in kwargs then Err(MissingArgument("email"))
    else
      var password := if "password" in kwargs then Str(kwargs["password"]) else NoneValue;
      var extra := map k | k in kwargs.Keys - {"email", "password"} :: Str(kwargs[k]);
      match CreateUser(Str(kwargs["email"]), password, extra, normalize)
      case Err(e) => Err(ManagerError(e))
      case Ok(user) => Ok(user)
  }

  /** `create`: drop the confirmation from `validated_data`, then create
      the user from what is left. */
  method Create(data: ValidatedData, normalize: Value -> string) returns (r: Result<UserDraft, SerializerError>)
    modifies data
    ensures data.fields == old(data.fields) - {Confirmation}
    ensures Confirmation !in old(data.fields) ==> r == Err(KeyError(Confirmation))
    ensures Confirmation in old(data.fields) ==> r == CreateUserFromKwargs(old(data.fields) - {Confirmation}, normalize)
  {
    var popped := data.Pop(Confirmation);
    if popped.Err? {
      return Err(popped.error);
    }
    r := CreateUserFromKwargs(data.fields, normalize);
  }

  /** What `create` passes on: a sign-up with a non-empty email creates a
      user, from every key but the confirmation, unchanged; the confirmation
      never reaches the user. */
  lemma CreatePassesAllButConfirmation(kwargs: Attrs, normalize: Value -> string)
    requires Confirmation in kwargs
    ensures var r := CreateUserFromKwargs(kwargs - {Confirmation}, normalize);
      && (r.Ok? <==> "email" in kwargs && kwargs["email"] != "")
      && (r.Ok? ==> && Confirmation !in r.value.extra
                    && r.value.extra.Keys == kwargs.Keys - {"email", "password", Confirmation}
                    && (forall k :: k in r.value.extra ==> r.value.extra[k] == Str(kwargs[k]))
                    && r.value.email == normalize(Str(kwargs["email"])))
  {
  }
}
