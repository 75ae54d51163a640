/** The exceptions that the link-reply engine raises or lets through, one constructor per cause. */
module Errors {

  /** Why a printf-style `%` formatting of a template fails. */
  datatype FormatError =
    | NotEnoughArgs          // TypeError: not enough arguments for format string
    | TooManyArgs            // TypeError: not all arguments converted during string formatting
    | Incomplete             // ValueError: incomplete format (a lone '%' at the end)
    | Unsupported(conv: char) // a conversion other than %s and %%

  datatype Error =
    | Seen(linkLabel: string)         // LinkBotSeenException
    | BadFormat(why: FormatError)    // raised by `template % args`
    | UnknownTable(ticketType: string) // KeyError from ServiceNowClient._table_from_number
    | NotFound(number: string)       // KeyError from ServiceNowClient.get: no such record
    | MissingField(field: string)    // AttributeError from getattr in ServiceNowRecord.items
    | NotText                        // TypeError: a mapping used where a string is needed
    | DictText                       // str() of a mapping inside a reply line (not modelled)
    | MissingKey(key: string)        // KeyError on the inbound event
    | UnknownClass(name: string)     // KeyError from the globals() lookup of LINK_CLASS
    | NoBots                         // Exception('No linkbots defined')
}
