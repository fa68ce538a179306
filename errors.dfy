/** The exceptions that escape the plugin's scan, as values. */
module Errors {
  datatype Error =
    | NotAnInteger(field: string, text: string)   // `int(...)` raised ValueError
    | UnknownServiceType(code: int)               // `service_types[type]` raised KeyError
    | MissingDllName(package: string)             // `dllname` was never bound
    | MissingAppInitValue                         // `None.replace(...)` raised AttributeError
    | AppInitNotText                              // `.replace` on an int or a list raised AttributeError
    | MissingWinlogonKey                          // the Winlogon key was None: AttributeError
}
