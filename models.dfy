/** The persisted records of the chat server (server/models/models.go),
    mirrored field for field. Times are Unix seconds; an ObjectID is
    represented by its hexadecimal rendering, which is what `Hex()` yields. */
module Models {
  import opened Common

  /** A point in time, in seconds since the Unix epoch. */
  type Instant = int

  /** Go's zero `time.Time` (00:00:00 UTC on 1 January of year 1). */
  const ZERO_TIME: Instant := -62135596800

  datatype ObjectId = ObjectId(hex: string)

  datatype User = User(
    id: ObjectId,
    username: string,
    email: string,
    password: string,
    userId: string,
    image: string,
    otp: string,
    otpExpires: Instant,
    verified: bool,
    googleLogin: bool)

  datatype UserRegisterReq = UserRegisterReq(username: string, email: string, password: string)

  datatype UserLoginReq = UserLoginReq(email: string, password: string)

  datatype Participant = Participant(id: string, username: string, email: string, image: string)

  datatype Message = Message(
    id: ObjectId,
    roomId: string,
    username: string,
    content: string,
    userId: string,
    createdAt: Instant)

  datatype Conversation = Conversation(
    id: ObjectId,
    participants: seq<Participant>,
    lastMessage: Option<Message>,
    createdAt: Instant,
    updatedAt: Instant,
    roomId: string)
}
