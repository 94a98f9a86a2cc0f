// The kernel's table of the shim's children.
module Kernel {
  datatype KernelState = Running | Zombie(code: int)

  // A child that has not been reaped. `inst` names the process, as pids recur.
  datatype Child = Child(inst: nat, state: KernelState)

  type Children = map<int, Child>

  // Instances name processes, and `exits` has the codes of those that are over.
  ghost predicate KernelOk(kernel: Children, exits: map<nat, int>, nextInst: nat) {
    && (forall p | p in kernel ::
          && p > 0
          && kernel[p].inst < nextInst
          && (kernel[p].state.Running? ==> kernel[p].inst !in exits)
          && (kernel[p].state.Zombie? ==> kernel[p].inst in exits && exits[kernel[p].inst] == kernel[p].state.code))
    && (forall p, q | p in kernel && q in kernel && p != q :: kernel[p].inst != kernel[q].inst)
    && (forall i | i in exits :: i < nextInst)
  }
}
