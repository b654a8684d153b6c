/** Error-carrying results shared by the configuration and mirror models.
    `Err` carries the message of the Go `error` value it stands for. */
module Results {

  datatype Result<T> = Ok(value: T) | Err(error: string)

  datatype Option<T> = None | Some(value: T)
}
