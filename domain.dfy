/**
 * The records of the FII (Brazilian real-estate fund) listing and the DTOs the
 * service builds from them. All of them are plain data. Decimal fields are `real`.
 */
module Domain {

  /** Fii: one fund of the Fundamentus listing, as the repository decodes it. */
  datatype Fii = Fii(
    papel: string,
    segmento: string,
    cotacao: real,
    ffoYield: real,
    dividendYield: real,
    pvp: real,
    valorMercado: real,
    liquidez: real,
    quantidadeImoveis: int,
    precoMetroQuadrado: real,
    aluguelMetroQuadrado: real,
    capRate: real,
    vacanciaMedia: real)

  /** Asset type detected from the segment label. */
  datatype Tipo = Tijolo | Papel | Hibrido {
    function Label(): string {
      match this
      case Tijolo => "TIJOLO"
      case Papel => "PAPEL"
      case Hibrido => "HIBRIDO"
    }
  }

  /** Risk tier of a score; "N/A" for a fund the pre-filter excludes. */
  datatype Risco = Conservador | Moderado | Arrojado | NaoAplicavel {
    function Label(): string {
      match this
      case Conservador => "Conservador"
      case Moderado => "Moderado"
      case Arrojado => "Arrojado"
      case NaoAplicavel => "N/A"
    }
  }

  /** Portfolio profile. */
  datatype Perfil = Ancoragem | Potencial | RiscoControlado | RiscoElevado {
    function Label(): string {
      match this
      case Ancoragem => "Ancoragem"
      case Potencial => "Potencial"
      case RiscoControlado => "Risco Controlado"
      case RiscoElevado => "Risco Elevado"
    }
  }

  /** FiiRankingDto: a fund with its score, type, risk tier and reasons. */
  datatype FiiRanking = FiiRanking(
    papel: string,
    segmento: string,
    cotacao: real,
    dividendYield: real,
    pvp: real,
    valorMercado: real,
    liquidez: real,
    vacanciaMedia: real,
    quantidadeImoveis: int,
    score: real,
    tipo: Tipo,
    risco: Risco,
    motivos: seq<string>)

  /** The tag a suggested-portfolio item carries. */
  datatype Bucket = BucketTijolo | BucketPapel | BucketRisco {
    function Label(): string {
      match this
      case BucketTijolo => "TIJOLO"
      case BucketPapel => "PAPEL"
      case BucketRisco => "RISCO"
    }
  }

  /** CarteiraSugeridaItemDto: one line of a weighted portfolio. */
  datatype CarteiraItem = CarteiraItem(
    papel: string,
    tipo: Bucket,
    score: real,
    risco: Risco,
    pesoPercentual: real,
    cotacao: real,
    dividendYield: real,
    pvp: real,
    liquidez: real,
    valorMercado: real,
    segmento: string,
    motivos: seq<string>)

  /** CarteiraSugeridaDto. */
  datatype CarteiraSugerida = CarteiraSugerida(
    pesoTijoloPercentual: real,
    pesoPapelPercentual: real,
    pesoRiscoPercentual: real,
    totalAtivos: int,
    itens: seq<CarteiraItem>)

  /** CarteiraParamRequestDto. */
  datatype CarteiraParamRequest = CarteiraParamRequest(
    pesoTijoloPercentual: real,
    pesoPapelPercentual: real,
    pesoRiscoPercentual: real,
    qtdTijolo: int,
    qtdPapel: int,
    qtdRisco: int)

  /** CarteiraPercentualRequestDto. */
  datatype CarteiraPercentualRequest = CarteiraPercentualRequest(
    pesoTijoloPercentual: real,
    pesoPapelPercentual: real,
    pesoRiscoPercentual: real,
    totalFiis: int)

  /** CarteiraPerfisRequestDto. */
  datatype CarteiraPerfisRequest = CarteiraPerfisRequest(
    ancoragemPercentual: real,
    potencialPercentual: real,
    riscoControladoPercentual: real,
    riscoElevadoPercentual: real,
    totalFiis: int)

  /**
   * What the service computes for one fund before `FiiMapper.ToDto` copies it
   * into a FiiDto: the dividend per unit, the profile and the reasons.
   */
  datatype FiiDetalhe = FiiDetalhe(
    fii: Fii,
    dividendoPorCota12m: real,
    tipo: Perfil,
    motivos: seq<string>)

  /** CarteiraPerfisFiiResponseDto. */
  datatype CarteiraPerfisResponse = CarteiraPerfisResponse(
    ancoragem: real,
    potencial: real,
    riscoControlado: real,
    riscoElevado: real,
    totalFii: int,
    itens: seq<FiiDetalhe>)

  /** A fund of the dual-rank filter, detailed, with its two ranks and their mean. */
  datatype FiiFiltrado = FiiFiltrado(
    detalhe: FiiDetalhe,
    rankPvp: int,
    rankDy: int,
    rankLevel: real)

  /** The exceptions the core raises. */
  datatype Erro =
    | PesosNegativos
    | SomaDiferenteDeCem(soma: real)
    | QuantidadesNegativas
    | NenhumAtivo
    | TotalNaoPositivo
    | PapelDuplicado(papel: string)
    | TabelaNaoEncontrada
    | CabecalhosNaoEncontrados
    | FalhaDownload
  {
    /** ArgumentException (as opposed to InvalidOperationException). */
    predicate IsArgumentException() {
      !(TabelaNaoEncontrada? || CabecalhosNaoEncontrados? || FalhaDownload?)
    }
  }
}
