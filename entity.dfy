/** The records the service passes around (internal/entity), and the
    foreign pieces that act on them: `encoding/json` and the input
    validators. Both are oracles: the model takes their answers as given. */
module Entity {
  import opened GoBase

  datatype Phone = Phone(id: int64, brand: string, model: string, year: int64, os: string, processor: string)

  /** The create and update payload: a phone without its store-assigned id. */
  datatype PhoneInput = PhoneInput(brand: string, model: string, year: int64, os: string, processor: string)

  /** A user row. `registeredAt` is a wall-clock reading in nanoseconds since
      the Unix epoch. */
  datatype User = User(id: int64, name: string, email: string, password: string, registeredAt: int)

  datatype SignUpInput = SignUpInput(name: string, email: string, password: string)

  datatype SignInInput = SignInInput(email: string, password: string)

  /** `SignUpInput.Validate` and `SignInInput.Validate`; their rules live in
      internal/entity/user.go, which is not part of this model. */
  datatype Validators = Validators(signUp: SignUpInput -> Error, signIn: SignInInput -> Error)

  /** The `encoding/json` calls the handlers make, each with its outcome. */
  datatype JsonCodec = JsonCodec(
    decodePhoneInput: seq<byte> -> Ret<PhoneInput>,
    decodeSignUp: seq<byte> -> Ret<SignUpInput>,
    decodeSignIn: seq<byte> -> Ret<SignInInput>,
    marshalPhone: Phone -> Ret<seq<byte>>,
    marshalPhones: seq<Phone> -> Ret<seq<byte>>,
    marshalStringMap: map<string, string> -> Ret<seq<byte>>)

  /** `json.Marshal` returns nil bytes with its error: a codec whose failed
      marshalling of a string map yields no bytes, as the library's does. */
  ghost predicate MarshalsNothingOnError(json: JsonCodec)
  {
    forall m :: !json.marshalStringMap(m).Ok() ==> json.marshalStringMap(m).val == []
  }
}
