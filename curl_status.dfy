/** Outcomes of the binding's intrinsics: either no error, or the error the
    module raises in the S-Lang interpreter (the message texts are not kept). */
module CurlStatus {

  datatype Option<+T> = None | Some(value: T)

  datatype Error =
    | EasyClosed          // "Curl_Type object has already been closed and may not be reused"
    | EasyRunning         // "It is illegal to call this function while curl_perform is running"
    | MultiClosed         // "The Curl_Multi_Type object has already been closed"
    | MultiBusy           // "The Curl_Multi_Type is in an invalid state for this operation"
    | AlreadyAttached     // "Curl_Type is already attached to a Curl_Multi_Type object"
    | StillAttached       // "The object must first be removed from the Curl_Multi_Type ..."
    | NoHandles           // "The Curl_Multi_Type object has no handles"
    | BadArgCount         // SL_INVALID_PARM: wrong number of option arguments
    | BadArgType          // an argument of the wrong S-Lang type could not be popped
    | BadOptionIndex      // SL_Internal_Error: "Unexpected Curl option value"
    | UnsupportedOption   // "cURL option is unknown or unsupported"
    | ListBuildFailed     // "Error in building a cURL list"
    | NativeError         // a libcurl call failed and its message was thrown
    | NativeUnreported    // a libcurl call failed; -1 is returned but nothing is thrown

  datatype Status = Ok | Err(error: Error)
}
