/** The vocabulary of the transport library the clients drive: option codes, option values,
    status codes, resources and the errors the clients raise. */
module Curl {
  import opened PhpStrings
  import opened PhpArrays

  // Option codes, with the numbers the transport library gives them.
  const OptUrl: int := 10002
  const OptHttpGet: int := 80
  const OptPost: int := 47
  const OptPostFields: int := 10015
  const OptCustomRequest: int := 10036
  const OptEncoding: int := 10102
  const OptReferer: int := 10016
  const OptUserAgent: int := 10018
  const OptHttpHeader: int := 10023
  const OptCookie: int := 10022
  const OptSslVerifyPeer: int := 64
  const OptSslVerifyHost: int := 81

  /** The multi interface asks to be called again at once. */
  const MultiCallMultiPerform: int := -1
  /** The multi interface reports success. */
  const MultiOk: int := 0
  /** A completion record says the transfer is done. */
  const MsgDone: int := 1
  /** A transfer finished without error. */
  const EasyOk: int := 0

  /** One field of a form body: a plain value or a file to upload. */
  datatype PostValue = Field(value: string) | File(path: string, mime: string, fileName: string)

  /** The value of a transport option. A url-encoded body (http_build_query) and a multipart
      body are kept as the fields they are built from. */
  datatype OptValue =
    | Flag(b: bool)
    | Num(n: int)
    | Text(s: string)
    | StrList(items: seq<string>)
    | UrlEncoded(fields: Arr<string, PostValue>)
    | Multipart(fields: Arr<string, PostValue>)

  /** Options keyed by option code. */
  type OptionMap = map<int, OptValue>

  /** A PHP resource: its numeric identity, its resource type and whether it is still open. */
  datatype Resource = Resource(id: nat, kind: string, open: bool)

  /** The string form of a resource, (string)$resource. */
  function ResourceText(r: Resource): string {
    "Resource id #" + NatToString(r.id)
  }

  /** The stored outcome of one request of a batch: 'err_no' and 'err_msg'. */
  datatype ErrorInfo = ErrorInfo(errNo: int, errMsg: string)

  /** The exceptions the clients raise, by kind. */
  datatype Error =
    | EmptyArgument                        // a required string or array argument is empty
    | InvalidJson                          // the body of postJson does not decode
    | InvalidXml                           // the body of postXml does not parse
    | HandlerNonExistent                   // no handler is registered under the id
    | HandlerUninitialized(id: int)        // the registered handle is not an open curl resource
    | RequestUninitialized                 // the single client's handle is not an open curl resource
    | HandlerInitFailed                    // curl_init returned false
    | MultiInitFailed                      // curl_multi_init returned false
    | FileNotFound                         // realpath could not resolve an upload path
    | NotAResource                         // the value given for id extraction is not a resource
    | ResourceIdNotFound                   // the string form of the resource holds no digit
    | InvalidInfoRead                      // a completion record carries no handle
    | UnknownHandlerId(id: int)            // no result is stored under the id
    | ErrorInfoMissing                     // no error record is stored under the id
    | ResultFailed(id: int, errMsg: string) // the stored result of the id is an error
    | RequestFailed(code: int, message: string) // an easy-interface call failed
    | MultiFailed(code: int, message: string) // a multi-interface call failed
}
