/** The only observable effect of the views' action handlers: a toast
    notification or a console line. Neither changes any record. */
module Notices {

  datatype Level = Info | Success | Warning | Error

  datatype Notice = Toast(level: Level, text: string) | ConsoleLog(text: string)

  /** What an action-menu handler does with a request: nothing (unknown
      record), open the detail view on the record, or emit a notice. */
  datatype Outcome<R> = Ignored | ShowDetails(record: R) | Notify(notice: Notice)
}
