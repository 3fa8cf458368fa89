/**
 * The records passed to the four event hooks. Input fields are filled by the host;
 * `threatScore` in the two decision contexts is the only field a plugin writes.
 * The Go `[]byte` fields `Password` and `Payload` are used here only as
 * strings: their byte length and their base64 form in JSON do not appear, and
 * bytes that are not valid UTF-8 cannot be represented.
 */
module Contexts {

  newtype uint8 = x: int | 0 <= x < 256

  /** Go's `byte`, an alias of `uint8`. */
  type byte = uint8

  datatype AuthContext = AuthContext(
    clientID: string,
    username: string,
    password: string,
    ip: string,
    threatScore: int)

  datatype SubscribeContext = SubscribeContext(
    clientID: string,
    username: string,
    topic: string,
    qos: uint8,
    ip: string,
    threatScore: int)

  datatype PublishContext = PublishContext(
    clientID: string,
    username: string,
    topic: string,
    payload: string,
    qos: uint8,
    retain: bool)

  datatype DisconnectContext = DisconnectContext(
    clientID: string,
    username: string,
    reason: string)

  // Go zero values of the four records (`var ctx pluginapi.AuthContext`, ...).
  const ZeroAuth := AuthContext("", "", "", "", 0)
  const ZeroSubscribe := SubscribeContext("", "", "", 0, "", 0)
  const ZeroPublish := PublishContext("", "", "", "", 0, false)
  const ZeroDisconnect := DisconnectContext("", "", "")
}
