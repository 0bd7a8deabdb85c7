/**
 * Call sequences of a whole session, as the user interface issues them:
 * wrong answers call PerderOportunidad and then test JuegoTerminado, correct
 * answers call AvanzarNivel. Each method states what the session looks like
 * afterwards, using only the contracts of the Game class.
 */
module Session {
  import opened Word
  import opened Game

  /** Four wrong answers from the start: the game is not over after three and is over after the fourth, at zero chances. */
  method CuatroErrores(modoFrases: bool) returns (terminadoTrasTres: bool, terminadoTrasCuatro: bool, oportunidades: int)
    ensures !terminadoTrasTres
    ensures terminadoTrasCuatro && oportunidades == 0
  {
    var g := new Game(modoFrases);
    g.PerderOportunidad();
    g.PerderOportunidad();
    g.PerderOportunidad();
    terminadoTrasTres := g.JuegoTerminado();
    g.PerderOportunidad();
    terminadoTrasCuatro := g.JuegoTerminado();
    oportunidades := g.GetOportunidades();
  }

  /** One correct answer in phrase mode: level 2, ten points, still 20 seconds and an easy phrase. */
  method PrimerAcierto() returns (nivel: int, puntos: int, tiempo: int, frase: string)
    ensures nivel == 2 && puntos == 10 && tiempo == 20
    ensures frase in FrasesFaciles
  {
    var g := new Game(true);
    g.AvanzarNivel();
    nivel, puntos, tiempo := g.GetNivel(), g.GetPuntos(), g.GetTiempoRestante();
    frase := g.GetPalabraOFraseActual();
  }

  /** Five correct answers: level 6, fifty points, 18 seconds and a medium-tier prompt; the chances are untouched. */
  method CincoAciertos(modoFrases: bool) returns (nivel: int, puntos: int, tiempo: int, oportunidades: int, prompt: string)
    ensures nivel == 6 && puntos == 50 && tiempo == 18 && oportunidades == 4
    ensures prompt in Banco(modoFrases, Media)
  {
    var g := new Game(modoFrases);
    g.AvanzarNivel();
    g.AvanzarNivel();
    g.AvanzarNivel();
    g.AvanzarNivel();
    g.AvanzarNivel();
    nivel, puntos, tiempo := g.GetNivel(), g.GetPuntos(), g.GetTiempoRestante();
    oportunidades, prompt := g.GetOportunidades(), g.GetPalabraOFraseActual();
  }

  /** The clock after `n` timer ticks starting from `t`. */
  function TiempoTrasTicks(t: int, n: nat): (r: int)
  {
    if n == 0 then t else TiempoTrasTicks(Tick(t), n - 1)
  }

  /** The last of `n + 1` ticks acts on the clock left by the first `n`. */
  lemma {:induction false} TickAlFinal(t: int, n: nat)
    ensures TiempoTrasTicks(t, n + 1) == Tick(TiempoTrasTicks(t, n))
  {
    if n > 0 {
      TickAlFinal(Tick(t), n - 1);
    }
  }

  /**
   * From a clock at `t >= 0`, `n` ticks leave `t - n` seconds while `n <= t`
   * and zero afterwards. In particular `t` ticks, the cycle count the timer
   * takes from the clock, end exactly at zero.
   */
  lemma {:induction false} TicksFormaCerrada(t: int, n: nat)
    requires 0 <= t
    ensures 0 <= TiempoTrasTicks(t, n) <= t
    ensures n <= t ==> TiempoTrasTicks(t, n) == t - n
    ensures t <= n ==> TiempoTrasTicks(t, n) == 0
  {
    if n > 0 {
      TicksFormaCerrada(Tick(t), n - 1);
    }
  }

  /** Clock ticks past zero: after at least the 20 seconds of level 1 the clock reads zero, and one more tick keeps it there. */
  method TiempoAgotado(modoFrases: bool, ticks: nat) returns (tiempo: int, trasOtroTick: int)
    requires 20 <= ticks
    ensures tiempo == 0 && trasOtroTick == 0
  {
    var g := new Game(modoFrases);
    var k := 0;
    while k < ticks
      invariant 0 <= k <= ticks
      invariant g.Valid()
      invariant g.tiempoRestante == TiempoTrasTicks(20, k)
    {
      g.ReducirTiempo();
      TickAlFinal(20, k);
      k := k + 1;
    }
    TicksFormaCerrada(20, ticks);
    tiempo := g.GetTiempoRestante();
    g.ReducirTiempo();
    trasOtroTick := g.GetTiempoRestante();
  }
}
