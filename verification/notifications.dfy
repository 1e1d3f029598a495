/** The pop-up notifications the dashboard shows, returned as values. */
module Notifications {

  datatype Kind = SuccessKind | ErrorKind

  datatype Notification =
    | Toast(kind: Kind, message: string)
      /** the request helper's error pop-up: status, url and description */
    | RequestError(status: int, url: string, description: string)
}
