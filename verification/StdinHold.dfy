// The shim's own writer on a process's stdin fifo (crates/shim/src/asynchronous/io.rs).
module StdinHold {
  // Pending: no copy has started. Open: the shim keeps the fifo open for writing. Released:
  // CloseIO let go of it, or came before there was anything to hold.
  datatype Hold = Pending | Open | Released

  // What a copy does with the writer it has opened.
  function Installed(h: Hold): Hold {
    if h == Released then Released else Open
  }

  // The hold that a process starts again with.
  function Renewed(h: Hold): Hold {
    if h == Released then Released else Pending
  }
}
