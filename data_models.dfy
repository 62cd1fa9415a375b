/** The task and result records of app/models/data_models.py. */
module DataModels {

  /** The input for one device query; frozen, so a value. */
  datatype RadioTask = RadioTask(ip: string, torre: string, username: string, password: string, port: int := 22)

  /** A query result; a plain mutable dataclass, so an object. Nothing validates its fields. */
  class RadioResult {
    var ip: string
    var torre: string
    /** Documented as one of 'Online', 'Offline', 'Erro Auth', 'Erro SSH', but any text is accepted. */
    var status: string
    var clientes: int
    var observacao: string

    constructor (ip: string, torre: string, status: string, clientes: int := 0, observacao: string := "")
      ensures this.ip == ip && this.torre == torre && this.status == status
      ensures this.clientes == clientes && this.observacao == observacao
    {
      this.ip := ip;
      this.torre := torre;
      this.status := status;
      this.clientes := clientes;
      this.observacao := observacao;
    }
  }

  /** A task built without a port uses port 22; a result built without counts has 0 clients and an empty note. */
  method Defaults(ip: string, torre: string, user: string, password: string, status: string)
    returns (task: RadioTask, result: RadioResult)
    ensures task.port == 22 && task.ip == ip && task.torre == torre
    ensures result.clientes == 0 && result.observacao == "" && result.status == status
    ensures fresh(result)
  {
    task := RadioTask(ip, torre, user, password);
    result := new RadioResult(ip, torre, status);
  }

  /** A negative client count is accepted as it is. */
  method Unvalidated(ip: string, torre: string, status: string, clientes: int) returns (result: RadioResult)
    ensures result.clientes == clientes && result.status == status
    ensures fresh(result)
  {
    result := new RadioResult(ip, torre, status, clientes);
  }
}
