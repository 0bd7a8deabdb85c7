/**
 * The session state of the typing game: level, score, chances left, seconds
 * left on the current level, the prompt to type and the word/phrase mode,
 * with the transitions the user interface drives (advance a level, lose a
 * chance, tick the clock) and the game-over test.
 */
module Game {
  import opened Word

  /** Seconds granted for a level: 20 up to level 5, then two fewer every five levels, down to 12 from level 21. */
  function TiempoPorNivel(nivel: int): (t: int)
    ensures 12 <= t <= 20
    ensures t % 2 == 0
  {
    if nivel <= 5 then 20
    else if nivel <= 10 then 18
    else if nivel <= 15 then 16
    else if nivel <= 20 then 14
    else 12
  }

  function Min(a: int, b: int): (m: int)
    ensures m <= a && m <= b
    ensures m == a || m == b
  {
    if a <= b then a else b
  }

  /** The time table as arithmetic: two seconds fewer per completed band of five levels, at most four bands. */
  lemma TiempoFormaCerrada(nivel: int)
    requires 1 <= nivel
    ensures TiempoPorNivel(nivel) == 20 - 2 * Min((nivel - 1) / 5, 4)
  {
  }

  /** A higher level never grants more time. */
  lemma TiempoNoCrece(nivel: int, otro: int)
    requires nivel <= otro
    ensures TiempoPorNivel(otro) <= TiempoPorNivel(nivel)
  {
  }

  /** One clock tick: the clock never rises, drops by at most one second and does not go below zero. */
  function Tick(t: int): (r: int)
    ensures t - 1 <= r <= t
    ensures 0 <= t ==> 0 <= r
    ensures r == t <==> t <= 0
  {
    if t > 0 then t - 1 else t
  }

  class Game {
    var nivel: int
    var puntos: int
    var oportunidades: int
    var tiempoRestante: int
    var palabraOFraseActual: string
    var modoFrases: bool

    /**
     * The session invariant: the score is ten points per completed level,
     * chances never exceed the initial four, the clock stays between zero
     * and the time granted for the level, and the prompt comes from the
     * level's tier of the session's bank.
     */
    ghost predicate Valid()
      reads this
    {
      1 <= nivel &&
      puntos == 10 * (nivel - 1) &&
      oportunidades <= 4 &&
      0 <= tiempoRestante <= TiempoPorNivel(nivel) &&
      palabraOFraseActual in Banco(modoFrases, TierPorNivel(nivel))
    }

    /** A new session at level 1 with no points, four chances, 20 seconds and an easy prompt. */
    constructor (modoFrases: bool)
      ensures Valid()
      ensures nivel == 1 && puntos == 0 && oportunidades == 4 && tiempoRestante == 20
      ensures this.modoFrases == modoFrases
      ensures palabraOFraseActual != ""
      ensures palabraOFraseActual in Banco(modoFrases, Facil)
    {
      var prompt;
      if modoFrases {
        prompt := ObtenerFrasePorNivel(1);
      } else {
        prompt := ObtenerPalabraPorNivel(1);
      }
      nivel := 1;
      puntos := 0;
      oportunidades := 4;
      this.modoFrases := modoFrases;
      tiempoRestante := 20;
      palabraOFraseActual := prompt;
    }

    /** A correct answer: ten more points, the next level, that level's time and a prompt of its tier. */
    method AvanzarNivel()
      requires Valid()
      modifies this
      ensures Valid()
      ensures puntos == old(puntos) + 10 && nivel == old(nivel) + 1
      ensures oportunidades == old(oportunidades) && modoFrases == old(modoFrases)
      ensures tiempoRestante == TiempoPorNivel(nivel)
      ensures palabraOFraseActual != ""
      ensures palabraOFraseActual in Banco(modoFrases, TierPorNivel(nivel))
    {
      puntos := puntos + 10;
      nivel := nivel + 1;

      var nuevoTiempo := 20;
      if 6 <= nivel < 11 {
        nuevoTiempo := 18;
      } else if 11 <= nivel < 16 {
        nuevoTiempo := 16;
      } else if 16 <= nivel < 21 {
        nuevoTiempo := 14;
      } else if 21 <= nivel {
        nuevoTiempo := 12;
      }
      tiempoRestante := nuevoTiempo;

      if modoFrases {
        palabraOFraseActual := ObtenerFrasePorNivel(nivel);
      } else {
        palabraOFraseActual := ObtenerPalabraPorNivel(nivel);
      }
    }

    /** A wrong answer: one chance fewer, with no floor; nothing else changes. */
    method PerderOportunidad()
      requires Valid()
      modifies this
      ensures Valid()
      ensures oportunidades == old(oportunidades) - 1
      ensures nivel == old(nivel) && puntos == old(puntos) && tiempoRestante == old(tiempoRestante)
      ensures palabraOFraseActual == old(palabraOFraseActual) && modoFrases == old(modoFrases)
    {
      oportunidades := oportunidades - 1;
    }

    /** One clock tick: one second fewer, except that the clock stays at zero once there. */
    method ReducirTiempo()
      requires Valid()
      modifies this
      ensures Valid()
      ensures 0 <= tiempoRestante <= old(tiempoRestante)
      ensures tiempoRestante == Tick(old(tiempoRestante))
      ensures nivel == old(nivel) && puntos == old(puntos) && oportunidades == old(oportunidades)
      ensures palabraOFraseActual == old(palabraOFraseActual) && modoFrases == old(modoFrases)
    {
      if tiempoRestante > 0 {
        tiempoRestante := tiempoRestante - 1;
      }
    }

    /** The session is over exactly when no chance is left. */
    function JuegoTerminado(): (terminado: bool)
      reads this
      ensures terminado <==> oportunidades < 1
      ensures Valid() && !terminado ==> 1 <= oportunidades <= 4
    {
      oportunidades <= 0
    }

    function GetPuntos(): (r: int)
      reads this
      ensures r == puntos
      ensures Valid() ==> r == 10 * (nivel - 1) && 0 <= r
    {
      puntos
    }

    function GetOportunidades(): (r: int)
      reads this
      ensures r == oportunidades
      ensures Valid() ==> r <= 4
    {
      oportunidades
    }

    function GetPalabraOFraseActual(): (r: string)
      reads this
      ensures r == palabraOFraseActual
      ensures Valid() ==> r != "" && r in Banco(modoFrases, TierPorNivel(nivel))
    {
      palabraOFraseActual
    }

    function GetNivel(): (r: int)
      reads this
      ensures r == nivel
      ensures Valid() ==> 1 <= r && r - 1 == puntos / 10
    {
      nivel
    }

    function GetTiempoRestante(): (r: int)
      reads this
      ensures r == tiempoRestante
      ensures Valid() ==> 0 <= r <= TiempoPorNivel(nivel) <= 20
    {
      tiempoRestante
    }
  }
}
