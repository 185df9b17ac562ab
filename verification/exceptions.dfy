/** The exception classes that can arise in the adapter, with the subclass relation of Python's
    built-ins, of the `requests` library and of the host framework's `ConnectorError`. */
module Exceptions {

  /** `ConnectionError`, `Timeout` and their subclasses are the `requests.exceptions` classes,
      not Python's built-ins of the same name. */
  datatype ExcClass =
    | Exception
    | RequestException
    | ConnectionError
    | ProxyError
    | SSLError
    | Timeout
    | ConnectTimeout
    | ReadTimeout
    | JSONDecodeError
    | ConnectorError
    | KeyError
    | AttributeError

  /** Every class `c` is an instance of: `c` itself and all its base classes. */
  function Ancestors(c: ExcClass): (r: set<ExcClass>)
    ensures c in r && Exception in r
  {
    match c
    case Exception => {Exception}
    case RequestException => {RequestException, Exception}
    case ConnectionError => {ConnectionError, RequestException, Exception}
    case ProxyError => {ProxyError, ConnectionError, RequestException, Exception}
    case SSLError => {SSLError, ConnectionError, RequestException, Exception}
    case Timeout => {Timeout, RequestException, Exception}
    case ConnectTimeout => {ConnectTimeout, ConnectionError, Timeout, RequestException, Exception}
    case ReadTimeout => {ReadTimeout, Timeout, RequestException, Exception}
    case JSONDecodeError => {JSONDecodeError, RequestException, Exception}
    case ConnectorError => {ConnectorError, Exception}
    case KeyError => {KeyError, Exception}
    case AttributeError => {AttributeError, Exception}
  }

  /** `isinstance(err, handler)` for an exception of class `c`. */
  predicate IsInstance(c: ExcClass, handler: ExcClass) {
    handler in Ancestors(c)
  }

  /** An exception as it reaches the host framework: its class and `str(err)`. */
  datatype Failure = Failure(cls: ExcClass, message: string)

  /** What `params.pop(key)` raises for a missing key: `str(KeyError(key))`, the key's repr, which is
      the key in single quotes for a key with no quote, backslash or control character, as are all
      the keys the operations pop. */
  function KeyFailure(key: string): Failure {
    Failure(KeyError, "'" + key + "'")
  }
}
