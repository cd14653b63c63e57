/** The phase bookkeeping of the project detail view (`src/components/VerDetallesProyecto.tsx`):
    the expand/collapse sets, the keyed updates of the phase array behind the admin handlers, the
    progress percentages, the status colours and the task counters of the metrics tab. */
module ProjectDetails {
  import opened Wrappers
  import opened Text

  // ---------------------------------------------------------------------------------------------
  // Entities

  datatype Tarea = Tarea(titulo: string, responsable: string, status: string)

  datatype Comentario = Comentario(contenido: string, usuario: string)

  /** `{ usuario, fecha }`, with the time in milliseconds. */
  datatype Change = Change(usuario: string, fecha: int)

  /** A phase of a project; `tareas` and `comentarios` may be missing from the document. */
  datatype Fase = Fase(
    key: string,
    descripcion: string,
    fechaInicio: string,
    fechaFin: string,
    estado: string,
    tareas: Option<seq<Tarea>>,
    comentarios: Option<seq<Comentario>>,
    creadoPor: string,
    fechaCreacion: int,
    ultimoCambio: Option<Change>,
    ultimaModificacion: Option<Change>)

  /** The phase forms `nuevaFase` and `faseEditando`. */
  datatype FaseForm = FaseForm(descripcion: string, fechaInicio: string, fechaFin: string, estado: string)

  const EmptyForm: FaseForm := FaseForm("", "", "", "Pendiente")

  /** A project; `id == ""` stands for a missing id. */
  datatype Proyecto = Proyecto(id: string, fases: Option<seq<Fase>>)

  datatype User = User(email: string, role: string)

  /** `proyectoLocal.fases || []`. */
  function FasesOf(p: Proyecto): seq<Fase> {
    p.fases.GetOr([])
  }

  // ---------------------------------------------------------------------------------------------
  // Expand and collapse

  /** One call of `toggleFase` or `toggleTareas` on the set of expanded keys. */
  function Toggled(s: set<string>, k: string): (r: set<string>)
    ensures k in r <==> k !in s
    ensures forall x :: x != k ==> (x in r <==> x in s)
  {
    if k in s then s - {k} else s + {k}
  }

  lemma ToggledTwice(s: set<string>, k: string)
    ensures Toggled(Toggled(s, k), k) == s
  {
  }

  // ---------------------------------------------------------------------------------------------
  // Keyed updates of the phase array

  /** The guard shared by the phase handlers: a signed-in admin and a project with an id. */
  predicate MayEditPhases(user: Option<User>, proyecto: Proyecto) {
    user.Some? && user.value.role == "admin" && proyecto.id != ""
  }

  /** `fases.map(f => f.key === faseKey ? { ...f, estado, ultimoCambio } : f)`. */
  function WithEstado(fases: seq<Fase>, key: string, estado: string, change: Change): (r: seq<Fase>)
    ensures |r| == |fases|
    ensures forall i :: 0 <= i < |fases| ==>
              r[i] == if fases[i].key == key then fases[i].(estado := estado, ultimoCambio := Some(change)) else fases[i]
  {
    if fases == [] then []
    else
      var f := fases[0];
      [if f.key == key then f.(estado := estado, ultimoCambio := Some(change)) else f]
        + WithEstado(fases[1..], key, estado, change)
  }

  /** `fases.map(f => f.key === faseKey ? { ...f, ...form, ultimaModificacion } : f)`. */
  function Edited(fases: seq<Fase>, key: string, form: FaseForm, change: Change): (r: seq<Fase>)
    ensures |r| == |fases|
    ensures forall i :: 0 <= i < |fases| && fases[i].key != key ==> r[i] == fases[i]
    ensures forall i :: 0 <= i < |fases| && fases[i].key == key ==>
              && r[i].descripcion == form.descripcion && r[i].fechaInicio == form.fechaInicio
              && r[i].fechaFin == form.fechaFin && r[i].estado == form.estado
              && r[i].ultimaModificacion == Some(change)
              && r[i].key == key && r[i].tareas == fases[i].tareas && r[i].comentarios == fases[i].comentarios
              && r[i].creadoPor == fases[i].creadoPor && r[i].fechaCreacion == fases[i].fechaCreacion
              && r[i].ultimoCambio == fases[i].ultimoCambio
  {
    if fases == [] then []
    else
      var f := fases[0];
      [if f.key == key
       then f.(descripcion := form.descripcion, fechaInicio := form.fechaInicio, fechaFin := form.fechaFin,
               estado := form.estado, ultimaModificacion := Some(change))
       else f]
        + Edited(fases[1..], key, form, change)
  }

  /** `fases.filter(f => f.key !== faseKey)`. */
  function Deleted(fases: seq<Fase>, key: string): (r: seq<Fase>)
    ensures |r| <= |fases|
    ensures forall f :: f in r <==> f in fases && f.key != key
  {
    if fases == [] then []
    else
      var rest := Deleted(fases[1..], key);
      assert forall f :: f in fases <==> f == fases[0] || f in fases[1..];
      if fases[0].key != key then [fases[0]] + rest else rest
  }

  /** Deleting works element by element, so it keeps the remaining phases in their order. */
  lemma {:induction false} DeletedAppend(a: seq<Fase>, b: seq<Fase>, key: string)
    ensures Deleted(a + b, key) == Deleted(a, key) + Deleted(b, key)
  {
    if a == [] {
      assert a + b == b;
    } else {
      assert (a + b)[0] == a[0] && (a + b)[1..] == a[1..] + b;
      DeletedAppend(a[1..], b, key);
    }
  }

  /** Deleting a phase that is not there changes nothing, so deleting twice is deleting once. */
  lemma {:induction false} DeletedAbsent(fases: seq<Fase>, key: string)
    requires forall i :: 0 <= i < |fases| ==> fases[i].key != key
    ensures Deleted(fases, key) == fases
  {
    if fases != [] {
      DeletedAbsent(fases[1..], key);
    }
  }

  lemma DeletedTwice(fases: seq<Fase>, key: string)
    ensures Deleted(Deleted(fases, key), key) == Deleted(fases, key)
  {
    var d := Deleted(fases, key);
    assert forall i :: 0 <= i < |d| ==> d[i] in d;
    DeletedAbsent(d, key);
  }

  /** `fase_${Date.now()}`. */
  function PhaseKey(now: int): string {
    "fase_" + IntToString(now)
  }

  /** `nuevaFaseCompleta`. */
  function NewFase(form: FaseForm, email: string, now: int): (f: Fase)
    ensures f.key == PhaseKey(now) && f.tareas == Some([]) && f.comentarios == Some([])
    ensures f.descripcion == form.descripcion && f.estado == form.estado && f.creadoPor == email
    ensures f.fechaInicio == form.fechaInicio && f.fechaFin == form.fechaFin && f.fechaCreacion == now
    ensures f.ultimoCambio.None? && f.ultimaModificacion.None?
  {
    Fase(PhaseKey(now), form.descripcion, form.fechaInicio, form.fechaFin, form.estado, Some([]), Some([]),
         email, now, None, None)
  }

  // ---------------------------------------------------------------------------------------------
  // Progress

  /** `fases?.find(f => f.key === faseKey)`: the first phase with the key. */
  function FindFase(fases: seq<Fase>, key: string): (r: Option<Fase>)
    ensures r.Some? ==> r.value in fases && r.value.key == key
    ensures r.Some? ==> exists i :: 0 <= i < |fases| && fases[i] == r.value && forall j :: 0 <= j < i ==> fases[j].key != key
    ensures r.None? <==> forall f :: f in fases ==> f.key != key
  {
    if fases == [] then None
    else if fases[0].key == key then Some(fases[0])
    else
      assert forall f :: f in fases <==> f == fases[0] || f in fases[1..];
      FindFase(fases[1..], key)
  }

  function CountStatus(ts: seq<Tarea>, status: string): (n: nat)
    ensures n <= |ts|
  {
    if ts == [] then 0 else (if ts[0].status == status then 1 else 0) + CountStatus(ts[1..], status)
  }

  function CountOtherStatus(ts: seq<Tarea>, status: string): (n: nat)
    ensures n <= |ts|
  {
    if ts == [] then 0 else (if ts[0].status != status then 1 else 0) + CountOtherStatus(ts[1..], status)
  }

  /** A task either has the status or not. */
  lemma {:induction false} CountsPartition(ts: seq<Tarea>, status: string)
    ensures CountStatus(ts, status) + CountOtherStatus(ts, status) == |ts|
  {
    if ts != [] {
      CountsPartition(ts[1..], status);
    }
  }

  /** A count reaches the length only when every task has the status. */
  lemma {:induction false} CountStatusAll(ts: seq<Tarea>, status: string)
    ensures CountStatus(ts, status) == |ts| <==> forall i :: 0 <= i < |ts| ==> ts[i].status == status
  {
    if ts != [] {
      CountStatusAll(ts[1..], status);
      assert forall i :: 1 <= i < |ts| ==> ts[i] == ts[1..][i - 1];
    }
  }

  /** `Math.round(x / d * 100)`, rounding halves up. */
  function RoundPercent(x: nat, d: nat): nat
    requires d > 0
  {
    (200 * x + d) / (2 * d)
  }

  lemma MulMonotonic(a: int, b: int, d: nat)
    requires a <= b
    ensures a * d <= b * d
  {
    var k := b - a;
    assert b * d == a * d + k * d;
  }

  lemma DivBetween(x: int, d: int, q: int)
    requires d > 0 && q * d <= x < (q + 1) * d
    ensures x / d == q
  {
    var r, m := x / d, x % d;
    assert x == r * d + m && 0 <= m < d;
    if r > q {
      MulMonotonic(q + 1, r, d);
    } else if r < q {
      MulMonotonic(r + 1, q, d);
    }
  }

  lemma DivBelow(x: int, d: int, q: int)
    requires d > 0 && 0 <= x < q * d
    ensures x / d < q
  {
    var r, m := x / d, x % d;
    assert x == r * d + m && 0 <= m < d;
    if r >= q {
      MulMonotonic(q, r, d);
    }
  }

  /** A percentage of a part of a whole is between 0 and 100, exactly 100 for the whole and 0 for
      nothing. */
  lemma RoundPercentRange(x: nat, d: nat)
    requires 0 < d && x <= d
    ensures RoundPercent(x, d) <= 100
    ensures x == d ==> RoundPercent(x, d) == 100
    ensures x == 0 ==> RoundPercent(x, d) == 0
  {
    DivBelow(200 * x + d, 2 * d, 101);
    if x == d {
      DivBetween(200 * x + d, 2 * d, 100);
    }
    if x == 0 {
      DivBetween(d, 2 * d, 0);
    }
  }

  /** Below 200 tasks, an incomplete phase stays under 100. */
  lemma RoundPercentIncomplete(x: nat, d: nat)
    requires 0 < d < 200 && x < d
    ensures RoundPercent(x, d) < 100
  {
    assert 200 * x + d < 100 * (2 * d);
    DivBelow(200 * x + d, 2 * d, 100);
  }

  /** From 200 tasks on, rounding can show 100 for a phase with a task left. */
  lemma RoundPercentRoundsUpToFull()
    ensures RoundPercent(999, 1000) == 100
  {
  }

  /** `calcularProgresoFase(faseKey)`. */
  function PhaseProgress(fases: seq<Fase>, key: string): nat {
    var fase := FindFase(fases, key);
    if fase.None? || fase.value.tareas.None? then 0
    else
      var ts := fase.value.tareas.value;
      if |ts| > 0 then RoundPercent(CountStatus(ts, "completed"), |ts|) else 0
  }

  /** A phase's progress is 0 without the phase or its tasks, at most 100, 100 when all tasks are
      completed and, below 200 tasks, only then. */
  lemma PhaseProgressRange(fases: seq<Fase>, key: string)
    ensures PhaseProgress(fases, key) <= 100
    ensures var fase := FindFase(fases, key);
      && (fase.None? || fase.value.tareas.None? || fase.value.tareas.value == [] ==> PhaseProgress(fases, key) == 0)
      && (fase.Some? && fase.value.tareas.Some? && fase.value.tareas.value != [] ==>
            var ts := fase.value.tareas.value;
            && ((forall i :: 0 <= i < |ts| ==> ts[i].status == "completed") ==> PhaseProgress(fases, key) == 100)
            && (|ts| < 200 && PhaseProgress(fases, key) == 100 ==> forall i :: 0 <= i < |ts| ==> ts[i].status == "completed"))
  {
    var fase := FindFase(fases, key);
    if fase.Some? && fase.value.tareas.Some? && fase.value.tareas.value != [] {
      var ts := fase.value.tareas.value;
      var c := CountStatus(ts, "completed");
      RoundPercentRange(c, |ts|);
      CountStatusAll(ts, "completed");
      if |ts| < 200 && c < |ts| {
        RoundPercentIncomplete(c, |ts|);
      }
    }
  }

  /** `fases.reduce((acc, fase) => acc + calcularProgresoFase(fase.key), 0)`, each phase looked up
      by its key in `all`. */
  function ProgressSum(all: seq<Fase>, fases: seq<Fase>): nat {
    if fases == [] then 0 else PhaseProgress(all, fases[0].key) + ProgressSum(all, fases[1..])
  }

  lemma {:induction false} ProgressSumBound(all: seq<Fase>, fases: seq<Fase>)
    ensures ProgressSum(all, fases) <= 100 * |fases|
  {
    if fases != [] {
      PhaseProgressRange(all, fases[0].key);
      ProgressSumBound(all, fases[1..]);
    }
  }

  /** `calcularProgresoProyecto()`. */
  function ProjectProgress(p: Proyecto): nat {
    var fases := FasesOf(p);
    if |fases| == 0 then 0
    else (2 * ProgressSum(fases, fases) + |fases|) / (2 * |fases|)
  }

  /** Project progress is 0 without phases and otherwise a rounded mean of values in 0..100, so
      also in 0..100. */
  lemma ProjectProgressRange(p: Proyecto)
    ensures FasesOf(p) == [] ==> ProjectProgress(p) == 0
    ensures ProjectProgress(p) <= 100
  {
    var fases := FasesOf(p);
    if fases != [] {
      ProgressSumBound(fases, fases);
      DivBelow(2 * ProgressSum(fases, fases) + |fases|, 2 * |fases|, 101);
    }
  }

  // ---------------------------------------------------------------------------------------------
  // Colours

  datatype EstadoInfo = EstadoInfo(value: string, labelText: string, color: string)

  const DefaultColor: string := "bg-gray-500"

  /** `ESTADOS_FASE`. */
  const EstadosFase: seq<EstadoInfo> := [
    EstadoInfo("Pendiente", "Pendiente", "bg-gray-500"),
    EstadoInfo("En Progreso", "En Progreso", "bg-blue-500"),
    EstadoInfo("En Revisión", "En Revisión", "bg-yellow-500"),
    EstadoInfo("Aprobada", "Aprobada", "bg-green-500"),
    EstadoInfo("Bloqueada", "Bloqueada", "bg-red-500"),
    EstadoInfo("Terminado", "Terminado", "bg-purple-500")]

  /** `ESTADOS_TAREA`. */
  const EstadosTarea: seq<EstadoInfo> := [
    EstadoInfo("pending", "Pendiente", "bg-gray-500"),
    EstadoInfo("in_progress", "En Progreso", "bg-blue-500"),
    EstadoInfo("review", "En Revisión", "bg-yellow-500"),
    EstadoInfo("completed", "Completada", "bg-green-500"),
    EstadoInfo("blocked", "Bloqueada", "bg-red-500")]

  /** `table.find(e => e.value === value)?.color`, or the default colour. */
  function ColorIn(table: seq<EstadoInfo>, value: string): (c: string)
    ensures (forall i :: 0 <= i < |table| ==> table[i].value != value) ==> c == DefaultColor
    ensures forall i :: 0 <= i < |table| && table[i].value == value && (forall j :: 0 <= j < i ==> table[j].value != value) ==>
              c == table[i].color
  {
    if table == [] then DefaultColor
    else if table[0].value == value then table[0].color
    else
      assert forall i :: 1 <= i < |table| ==> table[i] == table[1..][i - 1];
      ColorIn(table[1..], value)
  }

  /** `getStatusColor(estado)`. */
  function StatusColor(estado: string): string {
    ColorIn(EstadosFase, estado)
  }

  /** `getTareaStatusColor(status)`. */
  function TareaStatusColor(status: string): string {
    ColorIn(EstadosTarea, status)
  }

  ghost predicate DistinctValues(table: seq<EstadoInfo>) {
    forall i, j :: 0 <= i < j < |table| ==> table[i].value != table[j].value
  }

  /** In a table without repeated values, every value finds its own entry. */
  lemma ColorInDistinct(table: seq<EstadoInfo>, i: nat)
    requires DistinctValues(table) && i < |table|
    ensures ColorIn(table, table[i].value) == table[i].color
  {
  }

  /** Each phase state of the table gets its own colour, and any other state the default. */
  lemma StatusColorTable(estado: string)
    ensures forall i :: 0 <= i < |EstadosFase| ==> StatusColor(EstadosFase[i].value) == EstadosFase[i].color
    ensures (forall i :: 0 <= i < |EstadosFase| ==> EstadosFase[i].value != estado) ==> StatusColor(estado) == DefaultColor
  {
    var t := EstadosFase;
    forall i, j | 0 <= i < j < |t| ensures t[i].value != t[j].value {
      assert t[i].value[0] != t[j].value[0] || t[i].value[3] != t[j].value[3];
    }
    forall i | 0 <= i < |t| ensures StatusColor(t[i].value) == t[i].color {
      ColorInDistinct(t, i);
    }
  }

  /** Each task status of the table gets its own colour, and any other status the default. */
  lemma TareaStatusColorTable(status: string)
    ensures forall i :: 0 <= i < |EstadosTarea| ==> TareaStatusColor(EstadosTarea[i].value) == EstadosTarea[i].color
    ensures (forall i :: 0 <= i < |EstadosTarea| ==> EstadosTarea[i].value != status) ==> TareaStatusColor(status) == DefaultColor
  {
    var t := EstadosTarea;
    forall i, j | 0 <= i < j < |t| ensures t[i].value != t[j].value {
      assert t[i].value[0] != t[j].value[0];
    }
    forall i | 0 <= i < |t| ensures TareaStatusColor(t[i].value) == t[i].color {
      ColorInDistinct(t, i);
    }
  }

  // ---------------------------------------------------------------------------------------------
  // Metrics

  /** `fases.flatMap(f => f.tareas || [])`. */
  function AllTareas(fases: seq<Fase>): seq<Tarea> {
    if fases == [] then [] else fases[0].tareas.GetOr([]) + AllTareas(fases[1..])
  }

  /** `fases.flatMap(f => f.comentarios || [])`. */
  function AllComentarios(fases: seq<Fase>): seq<Comentario> {
    if fases == [] then [] else fases[0].comentarios.GetOr([]) + AllComentarios(fases[1..])
  }

  function CountFasesInEstado(fases: seq<Fase>, estado: string): (n: nat)
    ensures n <= |fases|
  {
    if fases == [] then 0 else (if fases[0].estado == estado then 1 else 0) + CountFasesInEstado(fases[1..], estado)
  }

  /** The numbers `renderMetricas()` shows. */
  datatype Metricas = Metricas(
    progreso: nat,
    fases: nat,
    tareas: nat,
    fasesCompletadas: nat,
    tareasPendientes: nat,
    comentarios: nat,
    tareasCompletadas: nat,
    tareasEnProgreso: nat,
    tareasBloqueadas: nat)

  function MetricasOf(p: Proyecto): (m: Metricas)
    ensures m.tareasCompletadas + m.tareasPendientes == m.tareas
    ensures m.tareasCompletadas + m.tareasEnProgreso + m.tareasBloqueadas <= m.tareas
    ensures m.fasesCompletadas <= m.fases && m.progreso <= 100
  {
    var fases := FasesOf(p);
    var tareas := AllTareas(fases);
    CountsPartition(tareas, "completed");
    StatusesDisjoint(tareas);
    ProjectProgressRange(p);
    Metricas(ProjectProgress(p), |fases|, |tareas|, CountFasesInEstado(fases, "Terminado"),
             CountOtherStatus(tareas, "completed"), |AllComentarios(fases)|, CountStatus(tareas, "completed"),
             CountStatus(tareas, "in_progress"), CountStatus(tareas, "blocked"))
  }

  lemma {:induction false} StatusesDisjoint(ts: seq<Tarea>)
    ensures CountStatus(ts, "completed") + CountStatus(ts, "in_progress") + CountStatus(ts, "blocked") <= |ts|
  {
    if ts != [] {
      StatusesDisjoint(ts[1..]);
    }
  }

  /** The tasks of the metrics are those of each phase in turn. */
  lemma {:induction false} AllTareasAppend(a: seq<Fase>, b: seq<Fase>)
    ensures AllTareas(a + b) == AllTareas(a) + AllTareas(b)
  {
    if a == [] {
      assert a + b == b;
    } else {
      assert (a + b)[0] == a[0] && (a + b)[1..] == a[1..] + b;
      AllTareasAppend(a[1..], b);
    }
  }

  // ---------------------------------------------------------------------------------------------
  // The view's state and handlers

  /** The component's state. `proyecto` is the prop, `user` the signed-in user; `writeOk` says
      whether the database update of a handler succeeds. */
  class ProjectView {
    const proyecto: Proyecto
    const user: Option<User>
    var proyectoLocal: Proyecto
    var loading: bool
    var expandedFases: set<string>
    var expandedTareas: set<string>
    var nuevaFase: FaseForm
    var faseEditando: FaseForm
    var editandoFase: Option<string>

    constructor (proyecto: Proyecto, user: Option<User>)
      ensures this.proyecto == proyecto && this.user == user && proyectoLocal == proyecto
      ensures !loading && expandedFases == {} && expandedTareas == {}
      ensures nuevaFase == EmptyForm && faseEditando == EmptyForm && editandoFase.None?
    {
      this.proyecto := proyecto;
      this.user := user;
      proyectoLocal := proyecto;
      loading := false;
      expandedFases := {};
      expandedTareas := {};
      nuevaFase := EmptyForm;
      faseEditando := EmptyForm;
      editandoFase := None;
    }

    /** `toggleFase(faseKey)`. */
    method ToggleFase(faseKey: string)
      modifies this
      ensures expandedFases == Toggled(old(expandedFases), faseKey)
      ensures expandedTareas == old(expandedTareas) && proyectoLocal == old(proyectoLocal) && loading == old(loading)
      ensures nuevaFase == old(nuevaFase) && faseEditando == old(faseEditando) && editandoFase == old(editandoFase)
    {
      var newExpanded := expandedFases;
      if faseKey in newExpanded {
        newExpanded := newExpanded - {faseKey};
      } else {
        newExpanded := newExpanded + {faseKey};
      }
      expandedFases := newExpanded;
    }

    /** `toggleTareas(faseKey)`. */
    method ToggleTareas(faseKey: string)
      modifies this
      ensures expandedTareas == Toggled(old(expandedTareas), faseKey)
      ensures expandedFases == old(expandedFases) && proyectoLocal == old(proyectoLocal) && loading == old(loading)
      ensures nuevaFase == old(nuevaFase) && faseEditando == old(faseEditando) && editandoFase == old(editandoFase)
    {
      var newExpanded := expandedTareas;
      if faseKey in newExpanded {
        newExpanded := newExpanded - {faseKey};
      } else {
        newExpanded := newExpanded + {faseKey};
      }
      expandedTareas := newExpanded;
    }

    /** `handleEstadoFase(faseKey, nuevoEstado)`; `updated` is what `onUpdate` receives. */
    method HandleEstadoFase(faseKey: string, nuevoEstado: string, now: int, writeOk: bool)
      returns (updated: Option<Proyecto>)
      modifies this
      ensures !MayEditPhases(user, proyecto) ==> updated.None? && proyectoLocal == old(proyectoLocal) && loading == old(loading)
      ensures MayEditPhases(user, proyecto) ==> !loading
      ensures MayEditPhases(user, proyecto) && writeOk ==>
                && proyectoLocal == old(proyectoLocal).(fases := Some(WithEstado(FasesOf(old(proyectoLocal)), faseKey, nuevoEstado, Change(user.value.email, now))))
                && updated == Some(proyectoLocal)
      ensures !writeOk ==> proyectoLocal == old(proyectoLocal) && updated.None?
      ensures expandedFases == old(expandedFases) && expandedTareas == old(expandedTareas)
      ensures nuevaFase == old(nuevaFase) && faseEditando == old(faseEditando) && editandoFase == old(editandoFase)
    {
      updated := None;
      if !MayEditPhases(user, proyecto) {
        return;
      }
      loading := true;
      var nuevasFases := WithEstado(FasesOf(proyectoLocal), faseKey, nuevoEstado, Change(user.value.email, now));
      if writeOk {
        proyectoLocal := proyectoLocal.(fases := Some(nuevasFases));
        updated := Some(proyectoLocal);
      }
      loading := false;
    }

    /** `handleAgregarFase()`: a non-blank description is required; the form is cleared afterwards. */
    method HandleAgregarFase(now: int, writeOk: bool) returns (updated: Option<Proyecto>)
      modifies this
      ensures Trim(old(nuevaFase).descripcion) == "" || !MayEditPhases(user, proyecto) ==>
                updated.None? && proyectoLocal == old(proyectoLocal) && nuevaFase == old(nuevaFase) && loading == old(loading)
      ensures Trim(old(nuevaFase).descripcion) != "" && MayEditPhases(user, proyecto) && writeOk ==>
                && proyectoLocal == old(proyectoLocal).(fases := Some(FasesOf(old(proyectoLocal)) + [NewFase(old(nuevaFase), user.value.email, now)]))
                && updated == Some(proyectoLocal) && nuevaFase == EmptyForm && !loading
      ensures Trim(old(nuevaFase).descripcion) != "" && MayEditPhases(user, proyecto) ==> !loading
      ensures !writeOk ==> proyectoLocal == old(proyectoLocal) && nuevaFase == old(nuevaFase) && updated.None?
      ensures expandedFases == old(expandedFases) && expandedTareas == old(expandedTareas)
      ensures faseEditando == old(faseEditando) && editandoFase == old(editandoFase)
    {
      updated := None;
      if Trim(nuevaFase.descripcion) == "" || !MayEditPhases(user, proyecto) {
        return;
      }
      loading := true;
      var nuevaFaseCompleta := NewFase(nuevaFase, user.value.email, now);
      var fasesActualizadas := FasesOf(proyectoLocal) + [nuevaFaseCompleta];
      if writeOk {
        proyectoLocal := proyectoLocal.(fases := Some(fasesActualizadas));
        updated := Some(proyectoLocal);
        nuevaFase := EmptyForm;
      }
      loading := false;
    }

    /** `handleEditarFase(faseKey)`: the edit form's fields replace the matching phases' fields;
        edit mode ends afterwards. */
    method HandleEditarFase(faseKey: string, now: int, writeOk: bool) returns (updated: Option<Proyecto>)
      modifies this
      ensures !MayEditPhases(user, proyecto) ==>
                updated.None? && proyectoLocal == old(proyectoLocal) && faseEditando == old(faseEditando)
                && editandoFase == old(editandoFase) && loading == old(loading)
      ensures MayEditPhases(user, proyecto) && writeOk ==>
                && proyectoLocal == old(proyectoLocal).(fases := Some(Edited(FasesOf(old(proyectoLocal)), faseKey, old(faseEditando), Change(user.value.email, now))))
                && updated == Some(proyectoLocal) && editandoFase.None? && faseEditando == EmptyForm && !loading
      ensures MayEditPhases(user, proyecto) ==> !loading
      ensures !writeOk ==> proyectoLocal == old(proyectoLocal) && faseEditando == old(faseEditando) && updated.None?
      ensures !writeOk ==> editandoFase == old(editandoFase)
      ensures expandedFases == old(expandedFases) && expandedTareas == old(expandedTareas) && nuevaFase == old(nuevaFase)
    {
      updated := None;
      if !MayEditPhases(user, proyecto) {
        return;
      }
      loading := true;
      var fasesActualizadas := Edited(FasesOf(proyectoLocal), faseKey, faseEditando, Change(user.value.email, now));
      if writeOk {
        proyectoLocal := proyectoLocal.(fases := Some(fasesActualizadas));
        updated := Some(proyectoLocal);
        editandoFase := None;
        faseEditando := EmptyForm;
      }
      loading := false;
    }

    /** `handleEliminarFase(faseKey)`. */
    method HandleEliminarFase(faseKey: string, writeOk: bool) returns (updated: Option<Proyecto>)
      modifies this
      ensures !MayEditPhases(user, proyecto) ==> updated.None? && proyectoLocal == old(proyectoLocal) && loading == old(loading)
      ensures MayEditPhases(user, proyecto) && writeOk ==>
                && proyectoLocal == old(proyectoLocal).(fases := Some(Deleted(FasesOf(old(proyectoLocal)), faseKey)))
                && updated == Some(proyectoLocal) && !loading
      ensures MayEditPhases(user, proyecto) ==> !loading
      ensures !writeOk ==> proyectoLocal == old(proyectoLocal) && updated.None?
      ensures expandedFases == old(expandedFases) && expandedTareas == old(expandedTareas)
      ensures nuevaFase == old(nuevaFase) && faseEditando == old(faseEditando) && editandoFase == old(editandoFase)
    {
      updated := None;
      if !MayEditPhases(user, proyecto) {
        return;
      }
      loading := true;
      var fasesActualizadas := Deleted(FasesOf(proyectoLocal), faseKey);
      if writeOk {
        proyectoLocal := proyectoLocal.(fases := Some(fasesActualizadas));
        updated := Some(proyectoLocal);
      }
      loading := false;
    }
  }

  /** A state change keeps the number and the order of the phases and touches only the matching
      ones; a non-matching key changes nothing. */
  lemma WithEstadoOnlyMatching(fases: seq<Fase>, key: string, estado: string, change: Change)
    ensures Keys(WithEstado(fases, key, estado, change)) == Keys(fases)
    ensures (forall i :: 0 <= i < |fases| ==> fases[i].key != key) ==> WithEstado(fases, key, estado, change) == fases
  {
  }

  /** Editing keeps the keys and their order. */
  lemma EditedKeepsKeys(fases: seq<Fase>, key: string, form: FaseForm, change: Change)
    ensures Keys(Edited(fases, key, form, change)) == Keys(fases)
  {
  }

  /** An added phase goes last, after all the existing phases; the keys grow by exactly its key. */
  lemma AddedPhaseGoesLast(fases: seq<Fase>, form: FaseForm, email: string, now: int)
    ensures var r := fases + [NewFase(form, email, now)];
      |r| == |fases| + 1 && r[..|fases|] == fases && Keys(r) == Keys(fases) + [PhaseKey(now)]
  {
    var r := fases + [NewFase(form, email, now)];
    assert r[..|fases|] == fases;
  }

  function Keys(fases: seq<Fase>): (ks: seq<string>)
    ensures |ks| == |fases| && forall i :: 0 <= i < |fases| ==> ks[i] == fases[i].key
  {
    seq(|fases|, i requires 0 <= i < |fases| => fases[i].key)
  }
}
