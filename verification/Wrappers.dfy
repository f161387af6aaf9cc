module Wrappers {
  datatype Option<+T> = None | Some(value: T)

  datatype Error =
    | PoolClosed | PoolOverload | InvalidPoolExpiry | InvalidPreAllocSize
    | InvalidMultiPoolSize | InvalidLoadBalancingStrategy
    | Pools(failures: seq<(nat, Error)>)

  datatype Result<+T> = Ok(value: T) | Err(error: Error)
}
