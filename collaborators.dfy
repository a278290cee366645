/**
 * Values that the dynamic session template receives from, or hands to,
 * MyBatis, MyBatis-Spring and the sqlhelper data-source layer. None of them
 * is implemented here: each is an opaque value identified by what the
 * template needs to know about it.
 */
module Collaborators {

  /** The routing key of one data source (group and name in sqlhelper). */
  datatype DataSourceKey = DataSourceKey(group: string, name: string)

  /** A MyBatis `Configuration`, identified only. */
  datatype Configuration = Configuration(id: nat)

  /** The mapper interface asked for (`Class<T> mapperInterface`). */
  datatype MapperInterface = MapperInterface(name: string)

  /** The key selector and the per-method key router, passed through untouched. */
  datatype DataSourceKeySelector = DataSourceKeySelector(id: nat)
  datatype DataSourceKeyRouter = DataSourceKeyRouter(id: nat)

  /** MyBatis executor types. */
  datatype ExecutorType = SIMPLE | REUSE | BATCH

  /**
   * A `SqlSessionFactory`. A plain factory has a configuration; a
   * `DynamicSqlSessionFactory` also holds one delegate factory per data
   * source key. The configuration of a dynamic factory is whatever its own
   * `getConfiguration()` answers, which sqlhelper decides outside this model.
   */
  datatype SqlSessionFactory =
    | DefaultSqlSessionFactory(id: nat, configuration: Configuration)
    | DynamicSqlSessionFactory(id: nat, configuration: Configuration,
                               delegates: map<DataSourceKey, SqlSessionFactory>)
  {
    /** `DynamicSqlSessionFactory.size()`: the number of delegates. */
    function Size(): nat
      requires DynamicSqlSessionFactory?
    {
      |delegates|
    }
  }

  /** A live MyBatis `SqlSession`, identified only. */
  datatype SqlSession = SqlSession(id: nat)

  /**
   * A `Throwable`. The only class test the template makes is
   * `instanceof PersistenceException`.
   */
  datatype Throwable =
    | PersistenceException(id: nat)
    | OtherThrowable(id: nat)

  /**
   * `PersistenceExceptionTranslator.translateExceptionIfPossible`: a
   * translated exception, or None where Spring answers null.
   */
  type Translator = Throwable -> Option<Throwable>

  /** How a call into the session ended: a returned value or a thrown error. */
  datatype Outcome<R> = Returned(value: R) | Threw(error: Throwable)

  /**
   * The library calls the interceptor makes, as functions of their
   * arguments: `SqlSessionUtils.getSqlSession`,
   * `SqlSessionUtils.isSqlSessionTransactional`, `sqlSession.commit(true)`
   * (None when it returns normally, the exception it throws otherwise) and
   * `ExceptionUtil.unwrapThrowable`. `closeSqlSession` returns nothing and
   * appears only as an event of the session log.
   */
  datatype SessionSupport = SessionSupport(
    getSqlSession: (SqlSessionFactory, ExecutorType, Option<Translator>) -> SqlSession,
    isSqlSessionTransactional: (SqlSession, SqlSessionFactory) -> bool,
    commit: SqlSession -> Option<Throwable>,
    unwrapThrowable: Throwable -> Throwable)

  datatype Option<T> = None | Some(value: T)

  /**
   * Failures that end a template operation: the template's own failed
   * downcast, and `Configuration.getMapper` not knowing a mapper interface.
   */
  datatype Failure = ClassCastException | BindingException

  datatype Result<T> = Ok(value: T) | Err(error: Failure)
}
