/** `childDriver.ConfigureNetworkChild`: the child's check of what the parent sent. */
module Child {
  import opened Wrappers
  import opened Configure

  datatype ChildError = MissingTap

  /** Accepts a message that names a device and returns that name unchanged. */
  function ConfigureNetworkChild(msg: NetworkMessage): (r: Result<string, ChildError>)
    ensures r.Success? <==> msg.dev != ""
    ensures r.Success? ==> r.value == msg.dev
    ensures r.Failure? ==> r.error == MissingTap
  {
    if msg.dev == "" then Failure(MissingTap) else Success(msg.dev)
  }
}
