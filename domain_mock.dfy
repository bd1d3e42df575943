/** What the example aggregates read from outside themselves while handling a command: the
    clock (`time.Now()`) and the mock `Stock` and `Balance` maps of example/domain/mock.go.
    They are passed in, so every command handler is a function of its inputs. */
module DomainMock {
  import opened DomainEvents

  datatype Env = Env(now: Time, stock: map<string, int>, balance: map<string, int>)

  /** `Stock[productId]`: a missing product reads as Go's zero value. */
  function StockOf(env: Env, productId: string): int
  {
    if productId in env.stock then env.stock[productId] else 0
  }

  /** `Balance[buyerId]`: a missing buyer reads as Go's zero value. */
  function BalanceOf(env: Env, buyerId: string): int
  {
    if buyerId in env.balance then env.balance[buyerId] else 0
  }

  /** The mock's initial contents (example/domain/mock.go:19-22). */
  function InitialMock(now: Time): Env
  {
    Env(now, map["p100" := 10], map["u100" := 1000])
  }
}
