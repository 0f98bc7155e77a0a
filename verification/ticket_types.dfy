/**
 * The ticket enumerations and the strings they are stored and published as
 * (libs/ticket/src/ticket.types.ts).
 */
module TicketTypes {
  import opened Wrappers

  /** The lifecycle states of a ticket. */
  datatype TicketStatus = Creating | Active | Validated | Deleted

  /** The string each status is stored as. */
  function StatusValue(status: TicketStatus): string
  {
    match status
    case Creating => "creating"
    case Active => "active"
    case Validated => "validated"
    case Deleted => "deleted"
  }

  /** Reads a stored status string back; exactly the inverse of StatusValue. */
  function ParseStatus(value: string): (r: Option<TicketStatus>)
    ensures forall status :: r == Some(status) <==> StatusValue(status) == value
  {
    if value == "creating" then Some(Creating)
    else if value == "active" then Some(Active)
    else if value == "validated" then Some(Validated)
    else if value == "deleted" then Some(Deleted)
    else None
  }

  /** The four status strings are pairwise distinct, so a status survives a round trip through its string. */
  lemma StatusEncodingInjective(a: TicketStatus, b: TicketStatus)
    ensures ParseStatus(StatusValue(a)) == Some(a)
    ensures StatusValue(a) == StatusValue(b) <==> a == b
  {
  }

  /** The message patterns a ticket operation is published or replied under. */
  datatype TicketEventPattern =
    | TicketCreate
    | TicketCreateReply
    | TicketDelete
    | TicketDeleteReply
    | TicketValidate

  /** The topic string of each pattern. */
  function PatternValue(pattern: TicketEventPattern): string
  {
    match pattern
    case TicketCreate => "ticket.create"
    case TicketCreateReply => "ticket.create.reply"
    case TicketDelete => "ticket.delete"
    case TicketDeleteReply => "ticket.delete.reply"
    case TicketValidate => "ticket.validate"
  }

  /** Reads a topic string back; exactly the inverse of PatternValue. */
  function ParsePattern(value: string): (r: Option<TicketEventPattern>)
    ensures forall pattern :: r == Some(pattern) <==> PatternValue(pattern) == value
  {
    if value == "ticket.create" then Some(TicketCreate)
    else if value == "ticket.create.reply" then Some(TicketCreateReply)
    else if value == "ticket.delete" then Some(TicketDelete)
    else if value == "ticket.delete.reply" then Some(TicketDeleteReply)
    else if value == "ticket.validate" then Some(TicketValidate)
    else None
  }

  /** The five topic strings are pairwise distinct. */
  lemma PatternEncodingInjective(p: TicketEventPattern, q: TicketEventPattern)
    ensures ParsePattern(PatternValue(p)) == Some(p)
    ensures PatternValue(p) == PatternValue(q) <==> p == q
  {
  }

  /** Replies to a pattern are published under the pattern's topic followed by this suffix. */
  const REPLY_SUFFIX: string := ".reply"

  /** The pattern a reply to `pattern` arrives under, if the enumeration declares one. */
  function ReplyPattern(pattern: TicketEventPattern): (r: Option<TicketEventPattern>)
    ensures forall reply :: r == Some(reply) <==> PatternValue(reply) == PatternValue(pattern) + REPLY_SUFFIX
  {
    ParsePattern(PatternValue(pattern) + REPLY_SUFFIX)
  }

  /** Create and delete have replies named by the suffix convention; validate and the replies themselves have none. */
  lemma ReplyPatterns()
    ensures ReplyPattern(TicketCreate) == Some(TicketCreateReply)
    ensures ReplyPattern(TicketDelete) == Some(TicketDeleteReply)
    ensures ReplyPattern(TicketValidate) == None
    ensures ReplyPattern(TicketCreateReply) == None
    ensures ReplyPattern(TicketDeleteReply) == None
  {
  }

  /** The image a ticket gets when it is created without one. */
  const DEFAULT_IMAGE: string := "https://loremflickr.com/cache/resized/65535_51819602222_b063349f16_c_640_480_nofilter.jpg"
}
