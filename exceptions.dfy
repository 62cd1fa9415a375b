/**
 * The exception classes the scanner raises and catches: the project's own hierarchy
 * (app/models/exceptions.py) together with the Python built-ins and the paramiko
 * classes its handlers name. A raised exception is a class and a message; a handler
 * `except C` catches every exception whose class is-a `C`.
 */
module Exceptions {

  datatype ExcClass =
    | Exception
    // Python built-ins
    | OSError | SocketTimeout | GaiError | ConnectionError | ConnectionRefusedError | PermissionError
    | ValueError | TypeError | AttributeError | RuntimeError | ImportError
    // paramiko
    | SSHException | AuthenticationException
    // app/models/exceptions.py
    | AppError | NetworkError | DeviceOfflineError | AuthenticationError | SSHExecutionError

  /** Distance from the root `Exception`. */
  function Depth(c: ExcClass): nat {
    match c
    case Exception => 0
    case OSError | ValueError | TypeError | AttributeError | RuntimeError | ImportError | SSHException | AppError => 1
    case SocketTimeout | GaiError | ConnectionError | PermissionError | AuthenticationException | NetworkError => 2
    case ConnectionRefusedError | DeviceOfflineError | AuthenticationError | SSHExecutionError => 3
  }

  /** The direct base class; the root is its own parent. */
  function Parent(c: ExcClass): (p: ExcClass)
    ensures c == Exception <==> p == c
    ensures c != Exception ==> Depth(p) + 1 == Depth(c)
  {
    match c
    case Exception => Exception
    case OSError | ValueError | TypeError | AttributeError | RuntimeError | ImportError | SSHException | AppError => Exception
    case SocketTimeout | GaiError | ConnectionError | PermissionError => OSError
    case ConnectionRefusedError => ConnectionError
    case AuthenticationException => SSHException
    case NetworkError => AppError
    case DeviceOfflineError | AuthenticationError | SSHExecutionError => NetworkError
  }

  /** The class and its ancestors, its method resolution order read as a set. */
  function Lineage(c: ExcClass): set<ExcClass> {
    match c
    case Exception => {Exception}
    case OSError | ValueError | TypeError | AttributeError | RuntimeError | ImportError | SSHException | AppError =>
      {c, Exception}
    case SocketTimeout | GaiError | ConnectionError | PermissionError => {c, OSError, Exception}
    case ConnectionRefusedError => {c, ConnectionError, OSError, Exception}
    case AuthenticationException => {c, SSHException, Exception}
    case NetworkError => {c, AppError, Exception}
    case DeviceOfflineError | AuthenticationError | SSHExecutionError => {c, NetworkError, AppError, Exception}
  }

  /** `issubclass(c, d)`: `d` is `c` or one of its ancestors. */
  predicate IsA(c: ExcClass, d: ExcClass) {
    d in Lineage(c)
  }

  /** The lineage is the chain of parents: `c` is-a `d` when it is `d` or its parent is-a `d`. */
  lemma IsAClosure(c: ExcClass, d: ExcClass)
    ensures IsA(c, d) <==> c == d || (c != Exception && IsA(Parent(c), d))
  {
    LineageOfParent(c);
  }

  lemma LineageOfParent(c: ExcClass)
    ensures c in Lineage(c)
    ensures c != Exception ==> Lineage(c) == {c} + Lineage(Parent(c))
  {
  }

  /** A raised exception: its class and `str(e)`. No class of the project adds fields. */
  datatype Error = Error(cls: ExcClass, msg: string)

  /** The outcome of a call: it returns a value or it raises. */
  datatype Call<+T> = Returns(value: T) | Raises(error: Error)

  lemma {:induction false} IsATransitive(a: ExcClass, b: ExcClass, c: ExcClass)
    requires IsA(a, b) && IsA(b, c)
    ensures IsA(a, c)
    decreases Depth(a)
  {
    IsAClosure(a, c);
    if a != b {
      IsAClosure(a, b);
      IsATransitive(Parent(a), b, c);
    }
  }

  lemma {:induction false} IsADepth(a: ExcClass, b: ExcClass)
    requires IsA(a, b)
    ensures Depth(b) <= Depth(a)
    ensures Depth(b) == Depth(a) ==> a == b
    decreases Depth(a)
  {
    if a != b {
      IsAClosure(a, b);
      IsADepth(Parent(a), b);
    }
  }

  lemma IsAAntisymmetric(a: ExcClass, b: ExcClass)
    requires IsA(a, b) && IsA(b, a)
    ensures a == b
  {
    IsADepth(a, b);
    IsADepth(b, a);
  }

  /** Every class here is an `Exception`, so `except Exception` catches all of them. */
  lemma {:induction false} EverythingIsAnException(c: ExcClass)
    ensures IsA(c, Exception)
    decreases Depth(c)
  {
    IsAClosure(c, Exception);
    if c != Exception {
      EverythingIsAnException(Parent(c));
    }
  }

  /**
   * The three device errors are network errors and application errors, and none of
   * the project's classes is an `OSError`: an `except OSError` never catches them.
   */
  lemma ProjectHierarchy(c: ExcClass)
    requires c in {DeviceOfflineError, AuthenticationError, SSHExecutionError}
    ensures IsA(c, NetworkError) && IsA(c, AppError) && IsA(c, Exception)
    ensures IsA(AppError, Exception) && Parent(AppError) == Exception
    ensures forall d :: d in {AppError, NetworkError, c} ==> !IsA(d, OSError) && !IsA(d, SSHException)
  {
  }

  /** Catching by a base class catches exactly its descendants, and the device errors are pairwise unrelated. */
  lemma DeviceErrorsUnrelated()
    ensures !IsA(DeviceOfflineError, SSHExecutionError) && !IsA(DeviceOfflineError, AuthenticationError)
    ensures !IsA(AuthenticationError, SSHExecutionError) && !IsA(AuthenticationError, DeviceOfflineError)
    ensures !IsA(SSHExecutionError, DeviceOfflineError) && !IsA(SSHExecutionError, AuthenticationError)
    ensures IsA(SocketTimeout, OSError) && IsA(ConnectionRefusedError, OSError) && IsA(GaiError, OSError)
    ensures IsA(AuthenticationException, SSHException) && IsA(PermissionError, OSError)
  {
  }
}
