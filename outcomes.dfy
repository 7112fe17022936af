/** Failure-carrying values shared by the form's operations. */
module Outcomes {

  datatype Option<+T> = None | Some(value: T)

  /** The error conditions the form reports to the user with a message box. */
  datatype ErrorKind =
    | NoUserLoggedIn      // the session holds no user id
    | NoCompaniesFound    // the logged-in user owns no company
    | CompanyLoadFailed   // the company query raised
    | NoCompanySelected   // "generate" pressed on the placeholder or on nothing
    | StoreQueryFailed    // one of the progress existence checks raised

  datatype Result<+T> = Ok(value: T) | Err(error: ErrorKind)
}
