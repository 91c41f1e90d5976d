/** Plot status and client assignment in the back office (src/pages/admin/PlotsManagement.tsx). */
module PlotsManagement {
  import opened Wrappers
  import opened Records

  /**
   * The mutation's argument `{ id, status?, client_id? }`: `None` is an absent (undefined)
   * key; `client_id` may also be present and null, `Some(None)`.
   */
  datatype PlotMutation = PlotMutation(id: string, status: Option<string>, client_id: Option<Option<string>>)

  /** The object sent to the update, one `Option` per key that may be present. */
  datatype UpdateData = UpdateData(status: Option<string>, client_id: Option<Option<string>>)

  /** `if (status) …; if (client_id !== undefined) …`: which keys reach the update. */
  function UpdateDataOf(m: PlotMutation): (d: UpdateData)
    ensures d.status.Some? <==> m.status.Some? && m.status.value != ""
    ensures d.status.Some? ==> d.status == m.status
    ensures d.client_id == m.client_id
  {
    UpdateData(if m.status.Some? && m.status.value != "" then m.status else None, m.client_id)
  }

  /** `updatePlotMutation.mutationFn`: `updateData` built by two conditional assignments. */
  method BuildUpdateData(m: PlotMutation) returns (d: UpdateData)
    ensures d == UpdateDataOf(m)
  {
    d := UpdateData(None, None);
    if m.status.Some? && m.status.value != "" {
      d := d.(status := m.status);
    }
    if m.client_id.Some? {
      d := d.(client_id := m.client_id);
    }
  }

  /** `handleStatusChange`: only the status, never the client. */
  function StatusChange(plot: Plot, newStatus: string): (m: PlotMutation)
    ensures m.id == plot.id && m.status == Some(newStatus) && m.client_id == None
  {
    PlotMutation(plot.id, Some(newStatus), None)
  }

  /** `handleAssignClient`: a client marks the plot Sold, the empty choice frees it. */
  function AssignClient(plot: Plot, clientId: string): (m: PlotMutation)
    ensures m.id == plot.id
    ensures clientId != "" ==> m.client_id == Some(Some(clientId)) && m.status == Some("Sold")
    ensures clientId == "" ==> m.client_id == Some(None) && m.status == Some("Available")
  {
    PlotMutation(plot.id,
                 Some(if clientId != "" then "Sold" else "Available"),
                 Some(if clientId != "" then Some(clientId) else None))
  }

  /** The plot row after the backend applies an update: present keys overwrite columns. */
  function Apply(plot: Plot, d: UpdateData): (p: Plot)
    ensures d.status.None? ==> p.status == plot.status
    ensures d.client_id.None? ==> p.client_id == plot.client_id
    ensures d.status.Some? ==> p.status == d.status.value
    ensures d.client_id.Some? ==> p.client_id == d.client_id.value
    ensures p.(status := plot.status, client_id := plot.client_id) == plot
  {
    plot.(status := if d.status.Some? then d.status.value else plot.status,
          client_id := if d.client_id.Some? then d.client_id.value else plot.client_id)
  }

  /** A status change leaves the assigned client as it was. */
  lemma StatusChangeKeepsClient(plot: Plot, s: string)
    ensures Apply(plot, UpdateDataOf(StatusChange(plot, s))).client_id == plot.client_id
    ensures s != "" ==> Apply(plot, UpdateDataOf(StatusChange(plot, s))).status == s
  {
  }

  /** An empty status is not sent, so it changes nothing. */
  lemma EmptyStatusIsNoop(plot: Plot)
    ensures Apply(plot, UpdateDataOf(StatusChange(plot, ""))) == plot
  {
  }

  /** After an assignment the plot is Sold exactly when it has a client. */
  lemma AssignmentSoldIffClient(plot: Plot, clientId: string)
    ensures var p := Apply(plot, UpdateDataOf(AssignClient(plot, clientId)));
            (p.status == "Sold") <==> p.client_id.Some?
  {
  }

  /** A status change can break that: a sold plot set back to Available keeps its client. */
  lemma StatusChangeCanOrphanClient()
    ensures var plot := Plot("p1", "12", "Ruiru", 500000, "Sold", Some("c1"), "50x100", None);
            var p := Apply(plot, UpdateDataOf(StatusChange(plot, "Available")));
            p.status == "Available" && p.client_id == Some("c1")
  {
  }
}
