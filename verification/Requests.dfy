/** The beginning of `process`: the opcode of a message and the splitting of its fields. */
module Requests {
  import opened Options
  import opened Text

  datatype Request =
    | Register(name: string, password: string, birthday: string)
    | Login(name: string, password: string, captcha: string)
    | Logout
    | Follow(action: char, rest: string)
    | Post(text: string)
    | Pm(text: string)
    | Block(rest: string)
    | Logstat
    | Stat
    | Ignored // the opcodes without a branch in process

  function DropLast(s: string): string
    requires s != []
  {
    s[..|s| - 1]
  }

  /** The fields of a body, by opcode. */
  function Fields(op: string, body: string): Option<Request> {
    match op
    case "01" => var args := Split(body); if |args| < 3 then None else Some(Register(args[0], args[1], args[2]))
    case "02" => var args := Split(body); if |args| < 3 then None else Some(Login(args[0], args[1], args[2]))
    case "03" => Some(Logout)
    case "04" => if body == [] then None else Some(Follow(body[0], body[1..]))
    case "05" => if body == [] then None else Some(Post(DropLast(body)))
    case "06" => if body == [] then None else Some(Pm(DropLast(body)))
    case "07" => Some(Logstat)
    case "08" => Some(Stat)
    case "12" => Some(Block(body))
    case _ => Some(Ignored)
  }

  /** None stands for the index exception that Java throws while it takes the message apart. */
  function Parse(message: string): Option<Request> {
    if |message| < 2 then None else Fields(message[..2], message[2..])
  }
}
