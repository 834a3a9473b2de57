/** The phases of the unattended host's journal. */
module Phases {

  datatype Phase = New | SnapshotCreating | SnapshotReady | BackupVerified | CredentialReady
    | PackageStaging | RebootPending | RuntimePending | RuntimeInstalled | PersistenceReboot | Closed
    | RolledBack | RecoveryRequired

  predicate Setback(p: Phase) {
    p.RolledBack? || p.RecoveryRequired?
  }

  function Rank(p: Phase): nat {
    match p
    case New => 0
    case SnapshotCreating => 1
    case SnapshotReady => 2
    case BackupVerified => 3
    case CredentialReady => 4
    case PackageStaging => 5
    case RebootPending => 6
    case RuntimePending => 7
    case RuntimeInstalled => 8
    case PersistenceReboot => 9
    case Closed => 10
    case _ => 11
  }

  /* ---------- where one request may lead ---------- */

  predicate SnapshotLeads(p: Phase, q: Phase) {
    q == p || (p.New? && (q.SnapshotCreating? || q.SnapshotReady?))
  }

  predicate AcknowledgeLeads(p: Phase, q: Phase) {
    q == p || (p.SnapshotReady? && q.BackupVerified?)
  }

  predicate CredentialLeads(p: Phase, q: Phase) {
    q == p || (p.BackupVerified? && q.CredentialReady?)
  }

  /** One `advance`: it never crosses a reboot, and `package-staging` is left only by the call that
      entered it. Only the runtime phases roll back by themselves. */
  predicate AdvanceLeads(p: Phase, q: Phase) {
    || q == p
    || (p.CredentialReady? && (q.PackageStaging? || q.RebootPending?))
    || (6 <= Rank(p) <= 8 && 7 <= Rank(q) <= 9 && Rank(p) < Rank(q))
    || (p.PersistenceReboot? && q.Closed?)
    || (6 <= Rank(p) <= 9 && Setback(q))
  }

  predicate RollbackLeads(p: Phase, q: Phase) {
    q == p || Setback(q)
  }
}
