/** Lists of process ids. */
module Pids {

  function Without(list: seq<nat>, pid: nat): (r: seq<nat>)
    ensures pid !in r && forall p :: p != pid ==> (p in r <==> p in list)
  {
    if list == [] then []
    else if list[0] == pid then Without(list[1..], pid)
    else [list[0]] + Without(list[1..], pid)
  }
}
