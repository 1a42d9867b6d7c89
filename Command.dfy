/** The command abstraction: a command's identity and required permission
    level, the permission gate, and the order in which commands are listed. */
module Commands {
  import opened Wrappers
  import opened Decimal
  import opened Strings

  /** One server scope; only its identity matters here. */
  datatype BotContext = BotContext(id: nat)

  /** The parts of a bot member that the command system reads: the context it
      belongs to, its user id and its permission level. */
  datatype XanBotMember = XanBotMember(context: BotContext, id: ULong, permissionLevel: Byte)

  /** A command's abstract properties. The handler itself is not modelled. */
  datatype Command = Command(name: string, description: string, syntax: string, requiredPermissionLevel: Byte)

  /** The stock permission gate of every command. */
  predicate CanUseCommand(cmd: Command, member: XanBotMember): (r: bool)
    ensures r <==> ByteCompareTo(member.permissionLevel, cmd.requiredPermissionLevel) >= 0
    ensures !r ==> cmd.requiredPermissionLevel > 0 && member.permissionLevel < 255
  {
    member.permissionLevel >= cmd.requiredPermissionLevel
  }

  /** Raising a member's level never revokes access. */
  lemma CanUseCommandMonotone(cmd: Command, member: XanBotMember, raised: XanBotMember)
    requires member.permissionLevel <= raised.permissionLevel
    ensures CanUseCommand(cmd, member) ==> CanUseCommand(cmd, raised)
  {
  }

  /** A member at the maximum level 255 can use every command, and a command
      requiring level 0 is usable by every member. */
  lemma CanUseCommandExtremes(cmd: Command, member: XanBotMember)
    ensures member.permissionLevel == 255 ==> CanUseCommand(cmd, member)
    ensures cmd.requiredPermissionLevel == 0 ==> CanUseCommand(cmd, member)
  {
  }

  /** `byte.CompareTo(byte)`: the difference of the two values. */
  function ByteCompareTo(a: Byte, b: Byte): (r: int)
    ensures r < 0 <==> a < b
    ensures r == 0 <==> a == b
    ensures -255 <= r <= 255
  {
    a - b
  }

  /** `CompareTo(Command other)`; `None` is a null `other`. Commands order by
      required level and then by name. */
  function CompareTo(self: Command, other: Option<Command>): (r: int)
    ensures other.None? ==> r == 1
    ensures other.Some? ==> -255 <= r <= 255
    ensures other.Some? && self.requiredPermissionLevel != other.value.requiredPermissionLevel ==>
      (r < 0 <==> self.requiredPermissionLevel < other.value.requiredPermissionLevel)
  {
    match other
    case None => 1
    case Some(o) =>
      var permComparison := ByteCompareTo(self.requiredPermissionLevel, o.requiredPermissionLevel);
      if permComparison != 0 then permComparison else CompareOrdinal(self.name, o.name)
  }

  /** Every command sorts after null. */
  lemma CompareToNull(self: Command)
    ensures CompareTo(self, None) == 1
  {
  }

  /** Different levels order by level ascending, whatever the names; equal
      levels order by name. */
  lemma CompareToByLevelThenName(a: Command, b: Command)
    ensures a.requiredPermissionLevel < b.requiredPermissionLevel ==> CompareTo(a, Some(b)) < 0
    ensures a.requiredPermissionLevel > b.requiredPermissionLevel ==> CompareTo(a, Some(b)) > 0
    ensures a.requiredPermissionLevel == b.requiredPermissionLevel ==> CompareTo(a, Some(b)) == CompareOrdinal(a.name, b.name)
  {
  }

  /** Two commands compare equal exactly when level and name agree; in
      particular every command compares equal to itself. */
  lemma CompareToZero(a: Command, b: Command)
    ensures CompareTo(a, Some(b)) == 0 <==> a.requiredPermissionLevel == b.requiredPermissionLevel && a.name == b.name
    ensures CompareTo(a, Some(a)) == 0
  {
  }

  /** Swapping the operands negates the result. */
  lemma CompareToAntisymmetric(a: Command, b: Command)
    ensures CompareTo(a, Some(b)) == -CompareTo(b, Some(a))
  {
    CompareOrdinalAntisymmetric(a.name, b.name);
  }

  /** "Sorts no later than" is transitive. */
  lemma CompareToTransitive(a: Command, b: Command, c: Command)
    requires CompareTo(a, Some(b)) <= 0 && CompareTo(b, Some(c)) <= 0
    ensures CompareTo(a, Some(c)) <= 0
  {
    if a.requiredPermissionLevel == b.requiredPermissionLevel == c.requiredPermissionLevel {
      CompareOrdinalTransitive(a.name, b.name, c.name);
    }
  }

  /** The relation a sorted command list follows. */
  predicate SortsNoLaterThan(a: Command, b: Command) {
    CompareTo(a, Some(b)) <= 0
  }

  /** `SortsNoLaterThan` is a total preorder, which is what `List.Sort` needs. */
  lemma SortsNoLaterThanTotalPreorder(a: Command, b: Command, c: Command)
    ensures SortsNoLaterThan(a, a)
    ensures SortsNoLaterThan(a, b) || SortsNoLaterThan(b, a)
    ensures SortsNoLaterThan(a, b) && SortsNoLaterThan(b, c) ==> SortsNoLaterThan(a, c)
  {
    CompareToAntisymmetric(a, b);
    if SortsNoLaterThan(a, b) && SortsNoLaterThan(b, c) {
      CompareToTransitive(a, b, c);
    }
  }

  /** A list whose every pair is in `SortsNoLaterThan` order. */
  predicate Sorted(cmds: seq<Command>) {
    forall i, j | 0 <= i < j < |cmds| :: SortsNoLaterThan(cmds[i], cmds[j])
  }

  /** Commands b (level 2), a (level 63) and c (level 2) are listed as b, c, a:
      the level decides before the name does. */
  lemma SortedExample(desc: string, syntax: string)
    ensures var a, b, c := Command("a", desc, syntax, 63), Command("b", desc, syntax, 2), Command("c", desc, syntax, 2);
      Sorted([b, c, a]) && !Sorted([b, a, c]) && !Sorted([a, b, c])
  {
    var a, b, c := Command("a", desc, syntax, 63), Command("b", desc, syntax, 2), Command("c", desc, syntax, 2);
    assert !SortsNoLaterThan([b, a, c][1], [b, a, c][2]);
    assert !SortsNoLaterThan([a, b, c][0], [a, b, c][1]);
  }
}
