/** Option and Result carriers, and the exceptions of the controller that the model keeps. */
module Base {

  datatype Option<T> = None | Some(value: T)

  datatype Result<T> = Ok(value: T) | Err(error: Error)

  /** The exceptions the controller raises or lets escape. */
  datatype Error =
    | FileUploadFailed    // frappe.throw("File Upload Failed. Please try again.")
    | AccessDenied        // frappe.throw("Access denied: Could not delete file")
    | FileNotFound        // frappe.throw("File not found"), or libmagic on a missing local file
    | TypeError           // concatenating None into a key
    | UnboundLocalError   // reading a local variable before it was assigned

  /** Python truthiness of an optional string: None and "" are false. */
  predicate Truthy(s: Option<string>) {
    s.Some? && s.value != ""
  }
}
