/** The messages the server sends, with the text that `process` builds for each. */
module ServerMessages {
  import opened Text

  datatype ServerMessage =
    | Ack(op: string)
    | FollowAck(follow: bool, message: string)
    | Error(op: string)
    | Stats(age: int, following: int, followers: int, posts: int)
    | Notification(isPublic: bool, sender: string, content: string)

  function TextOf(m: ServerMessage): string {
    match m
    case Ack(op) => "10" + op
    case FollowAck(follow, message) => "1004" + (if follow then "00" else "01") + message + [NUL]
    case Error(op) => "11" + op
    case Stats(age, following, followers, posts) =>
      "1007" + Decimal(age) + " " + Decimal(following) + " " + Decimal(followers) + " " + Decimal(posts)
    case Notification(isPublic, sender, content) =>
      "09" + (if isPublic then "1" else "0") + sender + [NUL] + content + [NUL]
  }
}
