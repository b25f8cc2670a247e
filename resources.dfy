/** Opaque descriptors for what the stacks hand to the resource provider:
    deploy-time values, stack outputs and security groups. */
module Resources {
  import opened Common

  /** A string known at synthesis time, or a token the provider resolves at deploy time. */
  datatype Value =
    | Lit(text: string)
    | Attr(construct: string, attribute: string)  // an attribute of a provisioned resource
    | Joined(sep: string, items: seq<Value>)      // Fn.join over an ordered list
    | JoinedSet(sep: string, members: set<Value>) // Fn.join over list(set(...)): no defined order
    | Concat(parts: seq<Value>)                   // string concatenation of tokens
    | Either(preferred: Value, fallback: Value)   // `preferred or fallback`, decided at deploy time

  /** A CloudFormation output as `add_output` was asked for it: `requestedExport` is the
      export name its caller passed, if any (the key it is finally exported under is
      derived from this and the output's name). */
  datatype Output = Output(name: string, value: Value, description: string, requestedExport: Option<string>)

  /** Names of a list of outputs, in order. */
  function OutputNames(outputs: seq<Output>): (names: seq<string>)
    ensures |names| == |outputs|
    ensures forall i :: 0 <= i < |outputs| ==> names[i] == outputs[i].name
  {
    seq(|outputs|, i requires 0 <= i < |outputs| => outputs[i].name)
  }

  lemma OutputNamesAppend(a: seq<Output>, b: seq<Output>)
    ensures OutputNames(a + b) == OutputNames(a) + OutputNames(b)
  {
  }

  datatype Port = AllTcp | Tcp(port: nat)

  datatype Peer = GroupPeer(groupId: Value) | Ipv4Peer(cidr: Value)

  datatype IngressRule = IngressRule(peer: Peer, connection: Port, description: string)

  /** An EC2 security group: its ingress rules are added one by one after creation. */
  class SecurityGroup {
    const constructId: string
    const groupId: Value
    const groupName: Option<string>
    const allowAllOutbound: bool
    var ingress: seq<IngressRule>

    /** A group created in the stack, with no ingress rules yet. */
    constructor (constructId: string, groupName: string, allowAllOutbound: bool)
      ensures this.constructId == constructId && groupId == Attr(constructId, "GroupId")
      ensures this.groupName == Some(groupName) && this.allowAllOutbound == allowAllOutbound
      ensures ingress == []
    {
      this.constructId := constructId;
      this.groupId := Attr(constructId, "GroupId");
      this.groupName := Some(groupName);
      this.allowAllOutbound := allowAllOutbound;
      this.ingress := [];
    }

    /** `SecurityGroup.from_security_group_id`: a reference to an existing group, with the
        library's default of allowing all outbound traffic. */
    constructor Imported(constructId: string, id: string)
      ensures this.constructId == constructId && groupId == Lit(id)
      ensures groupName == None && allowAllOutbound && ingress == []
    {
      this.constructId := constructId;
      this.groupId := Lit(id);
      this.groupName := None;
      this.allowAllOutbound := true;
      this.ingress := [];
    }

    /** `add_ingress_rule`: appends one rule and changes nothing else. */
    method AddIngressRule(peer: Peer, connection: Port, description: string)
      modifies this`ingress
      ensures ingress == old(ingress) + [IngressRule(peer, connection, description)]
    {
      ingress := ingress + [IngressRule(peer, connection, description)];
    }
  }
}
