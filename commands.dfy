/**
 * The command errors of the hooks library that this package throws and
 * renders. The library defines more; only the cases used here are modelled,
 * with every other error collapsed into `OtherError`.
 */
module Commands {

  datatype CommandError =
    | ArgumentNotFound(argument: string)
    | InvalidPermissions
    | UnableToConvertArgument(argument: string, typeName: string)
    | OtherError
}
