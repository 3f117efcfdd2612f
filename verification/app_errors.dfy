/** The application's error value. Its contents are not looked at by the
    code modelled here; it is carried from an `Event` to an `Action`
    unchanged. */
module AppErrors {

  datatype Error = AppError(description: string)
}
