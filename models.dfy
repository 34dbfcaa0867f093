/** The two record shapes of the chat application (models/models.go). */
module Models {

  /** An opaque point in time; the model never inspects it. */
  datatype Timestamp = Timestamp(ticks: int)

  /** The time a zero-valued record carries (Go's zero `time.Time`). */
  const ZeroTime: Timestamp := Timestamp(0)

  /** A chat participant, created on login and never changed afterwards. */
  datatype User = User(id: string, name: string, createdAt: Timestamp)

  /** What a lookup of a missing key in the user map yields (Go's zero `User`). */
  const ZeroUser: User := User("", "", ZeroTime)

  /** One entry of the shared message log. */
  datatype Message = Message(id: string, userId: string, userName: string, content: string, createdAt: Timestamp)
}
