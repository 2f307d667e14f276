/** The organisation's access-control statement and the permission table of each
    of its seven roles, as constant maps from resource to the set of allowed actions. */
module Auth {

  datatype Resource = TransactionRes | RequestRes | InventoryRes | DocumentRes
                    | RoomRes | MemberRes | BookingRes | InvitationRes | LogRes

  datatype Action = Create | Read | Update | Delete | Approve | Cancel

  datatype Role = Owner | Ketua | Bendahara | Sekretaris | Operasional | Pengadaan | Nurse

  type Table = map<Resource, set<Action>>

  const CRUD: set<Action> := {Create, Read, Update, Delete}

  /** Every resource and every action the access controller knows about. */
  function Statement(): Table
  {
    map[TransactionRes := {Create, Read},
        RequestRes := {Create, Read, Approve},
        InventoryRes := CRUD,
        DocumentRes := CRUD,
        RoomRes := CRUD,
        MemberRes := CRUD,
        BookingRes := CRUD,
        InvitationRes := {Create, Cancel},
        LogRes := {Read}]
  }

  /** The full set of permissions: the founders' table. */
  function OwnerTable(): Table
  {
    map[TransactionRes := {Create, Read},
        RequestRes := {Create, Read, Approve},
        InventoryRes := CRUD,
        DocumentRes := CRUD,
        RoomRes := CRUD,
        MemberRes := CRUD,
        BookingRes := CRUD,
        InvitationRes := {Create, Cancel},
        LogRes := {Read}]
  }

  /** The final approver, written out in full on its own. */
  function KetuaTable(): Table
  {
    map[TransactionRes := {Create, Read},
        RequestRes := {Create, Read, Approve},
        InventoryRes := CRUD,
        DocumentRes := CRUD,
        RoomRes := CRUD,
        MemberRes := CRUD,
        BookingRes := CRUD,
        InvitationRes := {Create, Cancel},
        LogRes := {Read}]
  }

  /** The first approver and treasurer. */
  function BendaharaTable(): Table
  {
    map[TransactionRes := {Create, Read},
        RequestRes := {Create, Read, Approve},
        InventoryRes := {Read},
        DocumentRes := {Read},
        RoomRes := {Read},
        MemberRes := {Read},
        BookingRes := {Read},
        LogRes := {Read}]
  }

  function SekretarisTable(): Table
  {
    map[TransactionRes := {Read},
        RequestRes := {Create, Read},
        InventoryRes := {Read},
        DocumentRes := CRUD,
        RoomRes := {Read},
        MemberRes := {Read},
        BookingRes := {Read},
        LogRes := {Read}]
  }

  function OperasionalTable(): Table
  {
    map[TransactionRes := {Read},
        BookingRes := {Read},
        RoomRes := {Read},
        RequestRes := {Create, Read},
        InventoryRes := {Read},
        DocumentRes := {Read},
        MemberRes := {Read},
        LogRes := {Read}]
  }

  function PengadaanTable(): Table
  {
    map[TransactionRes := {Read},
        RequestRes := {Create, Read},
        InventoryRes := {Create, Read, Update},
        DocumentRes := {Read},
        RoomRes := {Read},
        MemberRes := {Read},
        BookingRes := {Read},
        LogRes := {Read}]
  }

  function NurseTable(): Table
  {
    map[BookingRes := {Create, Read, Update},
        RoomRes := {Read},
        RequestRes := {Create, Read},
        InventoryRes := {Read},
        LogRes := {Read}]
  }

  function TableOf(r: Role): Table
  {
    match r
    case Owner => OwnerTable()
    case Ketua => KetuaTable()
    case Bendahara => BendaharaTable()
    case Sekretaris => SekretarisTable()
    case Operasional => OperasionalTable()
    case Pengadaan => PengadaanTable()
    case Nurse => NurseTable()
  }

  /** A role may perform `a` on `res`; a resource missing from its table grants nothing. */
  predicate Holds(r: Role, res: Resource, a: Action)
  {
    res in TableOf(r) && a in TableOf(r)[res]
  }

  /** `t` grants nothing beyond what `s` declares. */
  predicate Within(t: Table, s: Table)
  {
    forall res :: res in t ==> res in s && t[res] <= s[res]
  }

  /** No role is given a resource or an action the statement does not declare. */
  lemma RolesWithinStatement(r: Role)
    ensures Within(TableOf(r), Statement())
    ensures forall res, a :: Holds(r, res, a) ==> res in Statement() && a in Statement()[res]
  {
  }

  /** Approving a request is the prerogative of the two approval levels and the owner. */
  lemma ApproveHolders(r: Role)
    ensures Holds(r, RequestRes, Approve) <==> r in {Owner, Ketua, Bendahara}
  {
  }

  /** The staff roles cannot approve anything at all. */
  lemma StaffNeverApprove(r: Role, res: Resource)
    requires r in {Sekretaris, Operasional, Pengadaan, Nurse}
    ensures !Holds(r, res, Approve)
  {
  }

  lemma KetuaEqualsOwner()
    ensures KetuaTable() == OwnerTable()
    ensures forall res, a :: Holds(Ketua, res, a) <==> Holds(Owner, res, a)
  {
  }

  /** Every member can file requests, read them and read the log. */
  lemma EveryoneRequestsAndReadsLog(r: Role)
    ensures Holds(r, RequestRes, Create) && Holds(r, RequestRes, Read)
    ensures Holds(r, LogRes, Read)
  {
  }

  /** Only the owner and the chair manage invitations. */
  lemma InvitationHolders(r: Role, a: Action)
    requires a == Create || a == Cancel
    ensures Holds(r, InvitationRes, a) <==> r == Owner || r == Ketua
  {
  }

  /** An organisation may be founded once per user, and holds at most 50 members. */
  const OrganizationLimit: nat := 1
  const MembershipLimit: nat := 50
}
